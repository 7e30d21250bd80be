/** The Python front end's NoiseModel (omniq-python/omniq/noise.py): a name
  * and a list of tagged channel tuples built by chained builder calls. */
module PyNoise {
  import opened Wrappers

  const DefaultName: string := "Custom Noise"
  const TypicalName: string := "Typical Hardware Noise"

  /** A channel tuple: ('DEPOLARIZING', probability) or
    * ('RELAXATION', t1, t2). */
  datatype Channel = Depolarizing(probability: real) | Relaxation(t1: real, t2: real)

  /** The tuple as Python holds it: the tag, then the numbers. */
  function Tuple(c: Channel): (t: (string, seq<real>))
    ensures t.0 == "DEPOLARIZING" <==> c.Depolarizing?
    ensures t.0 == "RELAXATION" <==> c.Relaxation?
    ensures |t.1| == (if c.Depolarizing? then 1 else 2)
  {
    match c
    case Depolarizing(p) => ("DEPOLARIZING", [p])
    case Relaxation(t1, t2) => ("RELAXATION", [t1, t2])
  }

  /** Reading a tuple back; anything but the two shapes the builders make
    * is rejected. */
  function FromTuple(t: (string, seq<real>)): (c: Option<Channel>)
    ensures c.Some? ==> Tuple(c.value) == t
  {
    if t.0 == "DEPOLARIZING" && |t.1| == 1 then
      assert [t.1[0]] == t.1;
      Some(Depolarizing(t.1[0]))
    else if t.0 == "RELAXATION" && |t.1| == 2 then
      assert [t.1[0], t.1[1]] == t.1;
      Some(Relaxation(t.1[0], t.1[1]))
    else None
  }

  /** Every tuple the builders append reads back as the channel it came from. */
  lemma TupleRoundTrip(c: Channel)
    ensures FromTuple(Tuple(c)) == Some(c)
  {
  }

  /** The dictionary to_dict returns. */
  datatype NoiseDict = NoiseDict(name: string, channels: seq<(string, seq<real>)>)

  function Tuples(cs: seq<Channel>): (ts: seq<(string, seq<real>)>)
    ensures |ts| == |cs| && forall k :: 0 <= k < |cs| ==> ts[k] == Tuple(cs[k])
  {
    if cs == [] then [] else Tuples(cs[..|cs| - 1]) + [Tuple(cs[|cs| - 1])]
  }

  /** Reading a whole channel list back. */
  function FromTuples(ts: seq<(string, seq<real>)>): (cs: Option<seq<Channel>>)
    ensures cs.Some? ==> |cs.value| == |ts|
  {
    if ts == [] then Some([])
    else
      match (FromTuples(ts[..|ts| - 1]), FromTuple(ts[|ts| - 1]))
      case (Some(init), Some(last)) => Some(init + [last])
      case _ => None
  }

  /** to_dict loses nothing: the channel list reads back exactly. */
  lemma {:induction false} TuplesRoundTrip(cs: seq<Channel>)
    ensures FromTuples(Tuples(cs)) == Some(cs)
  {
    if cs != [] {
      var init := cs[..|cs| - 1];
      TuplesRoundTrip(init);
      TupleRoundTrip(cs[|cs| - 1]);
      assert Tuples(cs)[..|cs| - 1] == Tuples(init);
      assert init + [cs[|cs| - 1]] == cs;
    }
  }

  class NoiseModel {
    var name: string
    var channels: seq<Channel>

    /** NoiseModel(name): no channels yet. */
    constructor (name: string)
      ensures this.name == name && channels == []
    {
      this.name := name;
      channels := [];
    }

    /** add_depolarizing_noise: appends one tuple and returns self. */
    method AddDepolarizingNoise(probability: real) returns (self: NoiseModel)
      modifies this`channels
      ensures self == this
      ensures channels == old(channels) + [Depolarizing(probability)]
    {
      channels := channels + [Depolarizing(probability)];
      return this;
    }

    /** add_relaxation_noise: appends one tuple and returns self. */
    method AddRelaxationNoise(t1: real, t2: real) returns (self: NoiseModel)
      modifies this`channels
      ensures self == this
      ensures channels == old(channels) + [Relaxation(t1, t2)]
    {
      channels := channels + [Relaxation(t1, t2)];
      return this;
    }

    /** to_dict: the name and the channel tuples, in order. */
    function ToDict(): (d: NoiseDict)
      reads this
      ensures d.name == name && |d.channels| == |channels|
      ensures FromTuples(d.channels) == Some(channels)
    {
      TuplesRoundTrip(channels);
      NoiseDict(name, Tuples(channels))
    }

    /** __str__: the name in quotes and the number of channels. */
    function Describe(format: int -> string): (s: string)
      reads this
      ensures s == "NoiseModel(name='" + name + "', channels=" + format(|channels|) + ")"
      ensures s[..17] == "NoiseModel(name='" && s[|s| - 1] == ')'
    {
      "NoiseModel(name='" + name + "', channels=" + format(|channels|) + ")"
    }
  }

  /** NoiseModel() with the default name. */
  method NewNoiseModel() returns (m: NoiseModel)
    ensures fresh(m) && m.name == DefaultName && m.channels == []
  {
    m := new NoiseModel(DefaultName);
  }

  /** createTypicalModel: depolarizing noise of 0.001, then relaxation with
    * T1 = 50 and T2 = 70. */
  method CreateTypicalModel() returns (m: NoiseModel)
    ensures fresh(m) && m.name == TypicalName
    ensures m.channels == [Depolarizing(0.001), Relaxation(50.0, 70.0)]
  {
    m := new NoiseModel(TypicalName);
    var _ := m.AddDepolarizingNoise(0.001);
    var _ := m.AddRelaxationNoise(50.0, 70.0);
  }
}
