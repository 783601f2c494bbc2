/** The RT90 projection enumeration and the lookup key that names each projection
    (RT90Position.GetProjectionString in RT90.cs). The key is the string the
    Gauss-Krueger engine is configured with; the model proves that it identifies
    the projection, that every value outside the six named ones falls back to the
    default key, and what shape every key has. */
module RT90Projections {

  datatype Option<T> = None | Some(value: T)

  /** The RT90Projection enum. In C# an enum variable can hold any integer, so a
      value that is none of the six named members is represented by Other. */
  datatype RT90Projection =
    | rt90_7_5_gon_v
    | rt90_5_0_gon_v
    | rt90_2_5_gon_v
    | rt90_0_0_gon_v
    | rt90_2_5_gon_o
    | rt90_5_0_gon_o
    | Other(value: int)
  {
    predicate IsNamed() { !Other? }
  }

  /** The projection used when a constructor is given none, and the one the
      fallback arm of the key mapping stands in for. */
  const DefaultProjection: RT90Projection := rt90_2_5_gon_v

  /** The six named projections, in the order the mapping lists them. */
  const NamedProjections: seq<RT90Projection> :=
    [rt90_7_5_gon_v, rt90_5_0_gon_v, rt90_2_5_gon_v, rt90_0_0_gon_v, rt90_2_5_gon_o, rt90_5_0_gon_o]

  /** The six lookup keys, in the same order. */
  const RT90Keys: seq<string> :=
    ["rt90_7.5_gon_v", "rt90_5.0_gon_v", "rt90_2.5_gon_v", "rt90_0.0_gon_v", "rt90_2.5_gon_o", "rt90_5.0_gon_o"]

  /** Reference definition of the named projection a value is treated as:
      itself when named, the default otherwise. KeyRoundTrip and
      SameKeyIffSameCanonical prove that the key mapping agrees with it. */
  function Canonical(p: RT90Projection): (c: RT90Projection)
    ensures c.IsNamed()
  {
    if p.IsNamed() then p else DefaultProjection
  }

  /** The lookup key of a projection. Total: the fallback arm sends every value
      outside the named six to the key of the default projection. */
  function GetProjectionString(p: RT90Projection): (key: string)
    ensures key in RT90Keys
    ensures |key| == 14 && key[..5] == "rt90_"
    ensures key[8..] == "_gon_v" || key[8..] == "_gon_o"
  {
    match p
    case rt90_7_5_gon_v => "rt90_7.5_gon_v"
    case rt90_5_0_gon_v => "rt90_5.0_gon_v"
    case rt90_2_5_gon_v => "rt90_2.5_gon_v"
    case rt90_0_0_gon_v => "rt90_0.0_gon_v"
    case rt90_2_5_gon_o => "rt90_2.5_gon_o"
    case rt90_5_0_gon_o => "rt90_5.0_gon_o"
    case Other(_) => "rt90_2.5_gon_v"
  }

  /** Reference inverse of GetProjectionString: the first candidate whose key
      equals the given string, if any. It is used only to state that a key
      identifies its projection. */
  function FindByKey(key: string, candidates: seq<RT90Projection>): (r: Option<RT90Projection>)
    ensures r.Some? ==> r.value in candidates && GetProjectionString(r.value) == key
    ensures r.None? ==> forall p :: p in candidates ==> GetProjectionString(p) != key
  {
    if candidates == [] then None
    else if GetProjectionString(candidates[0]) == key then Some(candidates[0])
    else FindByKey(key, candidates[1..])
  }

  /** The search returns the first candidate carrying the key. */
  lemma {:induction false} FindFirstMatch(key: string, candidates: seq<RT90Projection>, i: nat)
    requires i < |candidates| && GetProjectionString(candidates[i]) == key
    requires forall j :: 0 <= j < i ==> GetProjectionString(candidates[j]) != key
    ensures FindByKey(key, candidates) == Some(candidates[i])
  {
    if i > 0 {
      FindFirstMatch(key, candidates[1..], i - 1);
    }
  }

  /** Round trip: looking the key up among the named projections gives back the
      projection, or the default one for a value outside the named six. */
  lemma KeyRoundTrip(p: RT90Projection)
    ensures FindByKey(GetProjectionString(p), NamedProjections) == Some(Canonical(p))
  {
    var key := GetProjectionString(p);
    match Canonical(p)
    case rt90_7_5_gon_v => FindFirstMatch(key, NamedProjections, 0);
    case rt90_5_0_gon_v => FindFirstMatch(key, NamedProjections, 1);
    case rt90_2_5_gon_v => FindFirstMatch(key, NamedProjections, 2);
    case rt90_0_0_gon_v => FindFirstMatch(key, NamedProjections, 3);
    case rt90_2_5_gon_o => FindFirstMatch(key, NamedProjections, 4);
    case rt90_5_0_gon_o => FindFirstMatch(key, NamedProjections, 5);
  }

  /** A string is found among the named projections exactly when it is one of the six keys. */
  lemma FoundIffKey(key: string)
    ensures FindByKey(key, NamedProjections).Some? <==> key in RT90Keys
  {
    if key in RT90Keys {
      var i :| 0 <= i < |RT90Keys| && RT90Keys[i] == key;
      KeyRoundTrip(NamedProjections[i]);
    }
  }

  /** Two projections share a key exactly when they are treated as the same
      named projection: the mapping loses nothing but the difference between
      an unknown value and the default. */
  lemma SameKeyIffSameCanonical(p: RT90Projection, q: RT90Projection)
    ensures GetProjectionString(p) == GetProjectionString(q) <==> Canonical(p) == Canonical(q)
  {
    KeyRoundTrip(p);
    KeyRoundTrip(q);
  }

  /** On the six named projections the mapping is injective. */
  lemma KeyInjectiveOnNamed(p: RT90Projection, q: RT90Projection)
    requires p.IsNamed() && q.IsNamed()
    ensures GetProjectionString(p) == GetProjectionString(q) <==> p == q
  {
  }

  /** The six keys are pairwise distinct, and each named projection has its own. */
  lemma KeysDistinct()
    ensures forall i, j :: 0 <= i < j < |RT90Keys| ==> RT90Keys[i] != RT90Keys[j]
    ensures forall i :: 0 <= i < |NamedProjections| ==> GetProjectionString(NamedProjections[i]) == RT90Keys[i]
  {
  }

  /** Every value outside the named six maps to the default key, "rt90_2.5_gon_v". */
  lemma UnknownFallsBackToDefault(p: RT90Projection)
    requires !p.IsNamed()
    ensures GetProjectionString(p) == GetProjectionString(DefaultProjection) == "rt90_2.5_gon_v"
  {
  }
}
