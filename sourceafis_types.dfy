/** Resolving the marking type a SourceAFIS minutia gets: type names are
    normalised (`toLowerCase`, modelled on ASCII letters, then everything
    outside [a-z0-9] dropped) and a type is sought first by id, then by
    normalised name or display name. */
module SourceafisTypes {
  import opened Wrappers
  import opened Markings
  import MarkingTypes
  import opened SourceafisConvert

  // ---- Type-name normalisation ------------------------------------------

  function Lower(c: char): char {
    if 'A' <= c <= 'Z' then (c as int + 32) as char else c
  }

  predicate Kept(c: char) {
    ('a' <= c <= 'z') || ('0' <= c <= '9')
  }

  function LowerAll(s: string): string {
    if s == [] then [] else [Lower(s[0])] + LowerAll(s[1..])
  }

  /** `replace(/[^a-z0-9]/g, "")`. */
  function KeepAlnum(s: string): string {
    if s == [] then []
    else if Kept(s[0]) then [s[0]] + KeepAlnum(s[1..])
    else KeepAlnum(s[1..])
  }

  /** `normalizeTypeName`: undefined becomes ""; letters are lowered, then
      everything outside [a-z0-9] is removed. */
  function NormalizeTypeName(value: Option<string>): string {
    KeepAlnum(LowerAll(value.GetOr("")))
  }

  /** Lowering is pointwise. */
  lemma {:induction false} LowerAllPointwise(s: string)
    ensures |LowerAll(s)| == |s|
    ensures forall i :: 0 <= i < |s| ==> LowerAll(s)[i] == Lower(s[i])
  {
    if s != [] {
      LowerAllPointwise(s[1..]);
    }
  }

  /** The filter keeps exactly the characters in [a-z0-9]. */
  lemma {:induction false} KeepAlnumMembers(s: string)
    ensures |KeepAlnum(s)| <= |s|
    ensures forall c :: c in KeepAlnum(s) <==> c in s && Kept(c)
  {
    if s != [] {
      KeepAlnumMembers(s[1..]);
      assert forall c :: c in s <==> c == s[0] || c in s[1..];
    }
  }

  /** A normalised name holds only [a-z0-9]; an undefined one is empty. */
  lemma NormalizedIsAlnum(value: Option<string>)
    ensures value.None? ==> NormalizeTypeName(value) == ""
    ensures forall c :: c in NormalizeTypeName(value) ==> Kept(c)
  {
    KeepAlnumMembers(LowerAll(value.GetOr("")));
  }

  lemma {:induction false} KeepAlnumOfKept(s: string)
    requires forall c :: c in s ==> Kept(c)
    ensures KeepAlnum(s) == s && LowerAll(s) == s
  {
    if s != [] {
      assert s[0] in s;
      assert forall c :: c in s[1..] ==> c in s;
      KeepAlnumOfKept(s[1..]);
    }
  }

  /** Normalising a normalised name changes nothing. */
  lemma NormalizeIdempotent(value: Option<string>)
    ensures NormalizeTypeName(Some(NormalizeTypeName(value))) == NormalizeTypeName(value)
  {
    NormalizedIsAlnum(value);
    KeepAlnumOfKept(NormalizeTypeName(value));
  }

  // ---- Type resolution ----------------------------------------------------

  function DesiredId(kind: string): string {
    if kind == "ending" then BifurcationId else RidgeEndingId
  }

  function DesiredName(kind: string): string {
    if kind == "ending" then "bifurcation" else "ridgeending"
  }

  predicate NameMatches(t: MarkingType, name: string) {
    NormalizeTypeName(Some(t.name)) == name || NormalizeTypeName(t.displayName) == name
  }

  function FindByName(types: seq<MarkingType>, name: string): (r: Option<MarkingType>)
    ensures r.Some? <==> exists i :: 0 <= i < |types| && NameMatches(types[i], name)
    ensures r.Some? ==> r.value in types && NameMatches(r.value, name)
  {
    if types == [] then None
    else if NameMatches(types[0], name) then Some(types[0])
    else
      var r := FindByName(types[1..], name);
      assert forall i :: 1 <= i < |types| ==> types[i] == types[1..][i - 1];
      r
  }

  /** `resolveSourceafisTypeId`, as written: kind "ending" seeks the
      bifurcation type and every other kind the ridge-ending type, first by
      id and then by normalised name or display name. */
  function ResolveTypeId(kind: string, types: seq<MarkingType>): Option<string> {
    match MarkingTypes.FindType(types, DesiredId(kind))
    case Some(t) => Some(t.id)
    case None =>
      match FindByName(types, DesiredName(kind))
      case Some(t) => Some(t.id)
      case None => None
  }

  /** An id match wins; otherwise the first name match is taken; with
      neither, nothing resolves. */
  lemma ResolveTypeIdSpec(kind: string, types: seq<MarkingType>)
    ensures MarkingTypes.HasTypeId(types, DesiredId(kind)) ==> ResolveTypeId(kind, types) == Some(DesiredId(kind))
    ensures ResolveTypeId(kind, types).None? <==>
      !MarkingTypes.HasTypeId(types, DesiredId(kind)) && !(exists i :: 0 <= i < |types| && NameMatches(types[i], DesiredName(kind)))
    ensures ResolveTypeId(kind, types).Some? && !MarkingTypes.HasTypeId(types, DesiredId(kind)) ==>
      exists t :: t in types && t.id == ResolveTypeId(kind, types).value && NameMatches(t, DesiredName(kind))
  {
  }

  /** Ids and names of the repository's mapping-test fixtures. */
  function Fixture(id: string, name: string): MarkingType {
    MarkingType(id, name, Some(name), RayClass, "", "", 0.0, "")
  }

  /** The first mapping test, as written: with the two canonical types,
      kind "ending" resolves to the bifurcation id, where the test expects
      the ridge-ending id. */
  lemma EndingTestAsWritten()
    ensures ResolveTypeId("ending", [Fixture(BifurcationId, "bifurcation"), Fixture(RidgeEndingId, "ridgeending")])
      == Some(BifurcationId)
  {
    var types := [Fixture(BifurcationId, "bifurcation"), Fixture(RidgeEndingId, "ridgeending")];
    assert types[0].id == BifurcationId;
  }

  /** The second mapping test, as written: kind "bifurcation" resolves to
      the ridge-ending id, where the test expects the bifurcation id. */
  lemma BifurcationTestAsWritten()
    ensures ResolveTypeId("bifurcation", [Fixture(RidgeEndingId, "ridgeending"), Fixture(BifurcationId, "bifurcation")])
      == Some(RidgeEndingId)
  {
    var types := [Fixture(RidgeEndingId, "ridgeending"), Fixture(BifurcationId, "bifurcation")];
    assert types[0].id == RidgeEndingId;
  }
}
