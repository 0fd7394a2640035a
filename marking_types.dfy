/** The marking-type registry's actions: select, add, replace many, remove,
    edit one, and the visibility toggle of types hidden from the canvases. */
module MarkingTypes {
  import opened Wrappers
  import opened Markings
  import opened MarkingTypesState

  predicate HasTypeId(types: seq<MarkingType>, id: string) {
    exists i :: 0 <= i < |types| && types[i].id == id
  }

  /** `types.find(t => t.id === id)`. */
  function FindType(types: seq<MarkingType>, id: string): (r: Option<MarkingType>)
    ensures r.Some? <==> HasTypeId(types, id)
    ensures r.Some? ==> r.value in types && r.value.id == id
  {
    if types == [] then None
    else if types[0].id == id then Some(types[0])
    else
      var r := FindType(types[1..], id);
      assert forall i :: 1 <= i < |types| ==> types[i] == types[1..][i - 1];
      r
  }

  /** `getConflicts`: the existing types whose id occurs in `ts`, in store order. */
  function Conflicts(types: seq<MarkingType>, ts: seq<MarkingType>): (r: seq<MarkingType>)
    ensures |r| <= |types|
    ensures forall t :: t in r <==> t in types && HasTypeId(ts, t.id)
  {
    if types == [] then []
    else (if HasTypeId(ts, types[0].id) then [types[0]] else []) + Conflicts(types[1..], ts)
  }

  /** The existing types whose id does not occur in `ts`, in store order. */
  function WithoutIds(types: seq<MarkingType>, ts: seq<MarkingType>): (r: seq<MarkingType>)
    ensures |r| <= |types|
    ensures forall t :: t in r <==> t in types && !HasTypeId(ts, t.id)
  {
    if types == [] then []
    else (if HasTypeId(ts, types[0].id) then [] else [types[0]]) + WithoutIds(types[1..], ts)
  }

  /** Every type sits in exactly one of the conflict list and the survivor list. */
  lemma {:induction false} ConflictsPartition(types: seq<MarkingType>, ts: seq<MarkingType>)
    ensures |Conflicts(types, ts)| + |WithoutIds(types, ts)| == |types|
  {
    if types != [] {
      ConflictsPartition(types[1..], ts);
    }
  }

  /** `addMany`: old types minus those being replaced, then `ts`. */
  function AddMany(types: seq<MarkingType>, ts: seq<MarkingType>): seq<MarkingType> {
    WithoutIds(types, ts) + ts
  }

  predicate UniqueIds(types: seq<MarkingType>) {
    forall i, j :: 0 <= i < j < |types| ==> types[i].id != types[j].id
  }

  /** `addMany` keeps every id of `ts` exactly once, namely `ts`'s own
      entry: with unique ids on both sides, the result has unique ids. */
  lemma AddManyKeepsIdsUnique(types: seq<MarkingType>, ts: seq<MarkingType>)
    requires UniqueIds(types) && UniqueIds(ts)
    ensures UniqueIds(AddMany(types, ts))
    ensures forall t :: t in AddMany(types, ts) <==> t in ts || (t in types && !HasTypeId(ts, t.id))
  {
    var w := WithoutIds(types, ts);
    WithoutIdsUnique(types, ts);
    var r := w + ts;
    forall i, j | 0 <= i < j < |r| ensures r[i].id != r[j].id {
      if j >= |w| && i < |w| {
        assert r[i] in w;
        assert r[j] == ts[j - |w|];
      }
    }
  }

  lemma {:induction false} WithoutIdsUnique(types: seq<MarkingType>, ts: seq<MarkingType>)
    requires UniqueIds(types)
    ensures UniqueIds(WithoutIds(types, ts))
  {
    if types != [] {
      WithoutIdsUnique(types[1..], ts);
      var rest := WithoutIds(types[1..], ts);
      forall t | t in rest ensures t.id != types[0].id {
        assert t in types[1..];
      }
    }
  }

  /** `removeById`'s filter. */
  function RemoveId(types: seq<MarkingType>, id: string): (r: seq<MarkingType>)
    ensures !HasTypeId(r, id)
    ensures forall t :: t in r <==> t in types && t.id != id
  {
    if types == [] then []
    else (if types[0].id == id then [] else [types[0]]) + RemoveId(types[1..], id)
  }

  /** A partial marking type: the fields `Object.assign` overwrites. */
  datatype TypePatch = TypePatch(
    id: Option<string>, name: Option<string>, displayName: Option<Option<string>>,
    markingClass: Option<MarkingClass>, backgroundColor: Option<string>, textColor: Option<string>,
    size: Option<real>, category: Option<string>)

  function Patch(t: MarkingType, p: TypePatch): MarkingType {
    MarkingType(p.id.GetOr(t.id), p.name.GetOr(t.name), p.displayName.GetOr(t.displayName),
      p.markingClass.GetOr(t.markingClass), p.backgroundColor.GetOr(t.backgroundColor),
      p.textColor.GetOr(t.textColor), p.size.GetOr(t.size), p.category.GetOr(t.category))
  }

  /** `setType`: patches the first type with the id, nothing else. */
  function PatchFirst(types: seq<MarkingType>, id: string, p: TypePatch): (r: seq<MarkingType>)
    ensures |r| == |types|
  {
    if types == [] then []
    else if types[0].id == id then [Patch(types[0], p)] + types[1..]
    else [types[0]] + PatchFirst(types[1..], id, p)
  }

  /** Index of the first type with the id. */
  function TypeIndex(types: seq<MarkingType>, id: string): (r: Option<nat>)
    ensures r.None? <==> !HasTypeId(types, id)
    ensures r.Some? ==>
      && r.value < |types| && types[r.value].id == id
      && forall j :: 0 <= j < r.value ==> types[j].id != id
  {
    if types == [] then None
    else if types[0].id == id then Some(0)
    else
      assert forall i :: 1 <= i < |types| ==> types[i] == types[1..][i - 1];
      match TypeIndex(types[1..], id)
      case None => None
      case Some(k) => Some(k + 1)
  }

  /** `setType` changes exactly the first type carrying the id, and nothing
      when no type does. */
  lemma {:induction false} PatchFirstSpec(types: seq<MarkingType>, id: string, p: TypePatch)
    ensures TypeIndex(types, id).None? ==> PatchFirst(types, id, p) == types
    ensures TypeIndex(types, id).Some? ==>
      var k := TypeIndex(types, id).value;
      PatchFirst(types, id, p) == types[k := Patch(types[k], p)]
  {
    if types != [] && types[0].id != id {
      PatchFirstSpec(types[1..], id, p);
      assert types == [types[0]] + types[1..];
    }
  }

  /** `visibility.toggle`: push an absent id, splice out the first
      occurrence of a present one. */
  function Toggle(hidden: seq<string>, id: string): (r: seq<string>)
    ensures id in r <==> (id !in hidden || Count(hidden, id) > 1)
    ensures forall x :: x != id ==> (x in r <==> x in hidden)
  {
    if id !in hidden then hidden + [id]
    else RemoveFirst(hidden, id)
  }

  function Count(s: seq<string>, x: string): nat {
    if s == [] then 0 else (if s[0] == x then 1 else 0) + Count(s[1..], x)
  }

  function RemoveFirst(s: seq<string>, x: string): (r: seq<string>)
    requires x in s
    ensures |r| == |s| - 1
    ensures Count(r, x) == Count(s, x) - 1
    ensures forall y :: y != x ==> (y in r <==> y in s)
    ensures x in r <==> Count(s, x) > 1
  {
    if s[0] == x then
      CountPositive(s[1..], x);
      s[1..]
    else
      var r := [s[0]] + RemoveFirst(s[1..], x);
      assert r[1..] == RemoveFirst(s[1..], x);
      r
  }

  lemma {:induction false} CountPositive(s: seq<string>, x: string)
    ensures x in s <==> Count(s, x) > 0
  {
    if s != [] {
      CountPositive(s[1..], x);
      assert s == [s[0]] + s[1..];
    }
  }

  predicate NoDuplicates(s: seq<string>) {
    forall i, j :: 0 <= i < j < |s| ==> s[i] != s[j]
  }

  lemma {:induction false} CountOneWhenUnique(s: seq<string>, x: string)
    requires NoDuplicates(s)
    ensures Count(s, x) <= 1
  {
    if s != [] {
      CountOneWhenUnique(s[1..], x);
      if s[0] == x {
        CountPositive(s[1..], x);
        assert x !in s[1..];
      }
    }
  }

  /** Toggling keeps the hidden list free of duplicates and flips exactly
      the membership of the toggled id. */
  lemma ToggleFlips(hidden: seq<string>, id: string)
    requires NoDuplicates(hidden)
    ensures NoDuplicates(Toggle(hidden, id))
    ensures id in Toggle(hidden, id) <==> id !in hidden
    ensures forall x :: x != id ==> (x in Toggle(hidden, id) <==> x in hidden)
  {
    CountOneWhenUnique(hidden, id);
    if id in hidden {
      RemoveFirstKeepsUnique(hidden, id);
    }
  }

  lemma {:induction false} RemoveFirstKeepsUnique(s: seq<string>, x: string)
    requires x in s && NoDuplicates(s)
    ensures NoDuplicates(RemoveFirst(s, x))
  {
    if s[0] != x {
      RemoveFirstKeepsUnique(s[1..], x);
      var rest := RemoveFirst(s[1..], x);
      var r := RemoveFirst(s, x);
      assert r == [s[0]] + rest;
      assert s[0] !in s[1..];
      forall i, j | 0 <= i < j < |r| ensures r[i] != r[j] {
        if i == 0 {
          assert r[j] == rest[j - 1];
          if r[j] != x {
            assert r[j] in s[1..];
          }
        } else {
          assert r[i] == rest[i - 1] && r[j] == rest[j - 1];
        }
      }
    }
  }

  /** Toggling an id twice restores the hidden list exactly when the id was
      absent, and restores its membership in every case. */
  lemma ToggleTwice(hidden: seq<string>, id: string)
    requires NoDuplicates(hidden)
    ensures id !in hidden ==> Toggle(Toggle(hidden, id), id) == hidden
    ensures forall x :: x in Toggle(Toggle(hidden, id), id) <==> x in hidden
  {
    ToggleFlips(hidden, id);
    ToggleFlips(Toggle(hidden, id), id);
    if id !in hidden {
      var once := hidden + [id];
      CountPositive(hidden, id);
      assert RemoveFirst(once, id) == hidden by {
        RemoveLastAdded(hidden, id);
      }
    }
  }

  lemma {:induction false} RemoveLastAdded(s: seq<string>, x: string)
    requires x !in s
    ensures RemoveFirst(s + [x], x) == s
  {
    if s != [] {
      assert (s + [x])[1..] == s[1..] + [x];
      RemoveLastAdded(s[1..], x);
    }
  }

  /** A toggle after the hidden list was emptied hides exactly that id. */
  lemma ToggleFromEmpty(id: string)
    ensures Toggle([], id) == [id]
  {
  }

  /** Whether some marking of a canvas uses the type (`checkIfTypeIsInUse`,
      given that canvas's markings). */
  function InUse(typeId: string, markings: seq<Marking>): (r: bool)
    ensures r <==> exists i :: 0 <= i < |markings| && markings[i].typeId == typeId
  {
    if markings == [] then false
    else if markings[0].typeId == typeId then true
    else
      assert forall i :: 1 <= i < |markings| ==> markings[i] == markings[1..][i - 1];
      InUse(typeId, markings[1..])
  }

  /** The registry, one for the whole application. */
  class Store {
    var selectedTypeId: Option<string>
    var types: seq<MarkingType>
    var hiddenTypes: seq<string>

    function Current(): State
      reads this
    {
      State(selectedTypeId, types, hiddenTypes)
    }

    constructor ()
      ensures Current() == Initial
    {
      selectedTypeId, types, hiddenTypes := None, [], [];
    }

    method Reset()
      modifies this
      ensures Current() == Initial
    {
      selectedTypeId, types, hiddenTypes := None, [], [];
    }

    /** The library's `set`: replaces the state as a whole. */
    method Set(s: State)
      modifies this
      ensures Current() == s
    {
      selectedTypeId, types, hiddenTypes := s.selectedTypeId, s.types, s.hiddenTypes;
    }

    /** `selectedType.set`: a non-empty id naming no known type is ignored;
        null (and the falsy empty id) is always taken. */
    method Select(typeId: Option<string>)
      modifies this`selectedTypeId
      ensures typeId.Some? && typeId.value != "" && !HasTypeId(types, typeId.value) ==>
        selectedTypeId == old(selectedTypeId)
      ensures !(typeId.Some? && typeId.value != "" && !HasTypeId(types, typeId.value)) ==>
        selectedTypeId == typeId
    {
      if typeId.Some? && typeId.value != "" && !HasTypeId(types, typeId.value) {
        return;
      }
      selectedTypeId := typeId;
    }

    /** `selectedType.get`. */
    method Selected() returns (t: Option<MarkingType>)
      ensures selectedTypeId.None? ==> t.None?
      ensures selectedTypeId.Some? ==> t == FindType(types, selectedTypeId.value)
    {
      t := if selectedTypeId.None? then None else FindType(types, selectedTypeId.value);
    }

    method Add(t: MarkingType)
      modifies this`types
      ensures types == old(types) + [t]
    {
      types := types + [t];
    }

    method GetConflicts(ts: seq<MarkingType>) returns (r: seq<MarkingType>)
      ensures r == Conflicts(types, ts)
    {
      r := Conflicts(types, ts);
    }

    method AddManyTypes(ts: seq<MarkingType>)
      modifies this`types
      ensures types == AddMany(old(types), ts)
    {
      types := WithoutIds(types, ts);
      types := types + ts;
    }

    /** Removes every type with the id (whether in use is the caller's
        concern) and clears the selection. */
    method RemoveById(id: string)
      modifies this`types, this`selectedTypeId
      ensures types == RemoveId(old(types), id)
      ensures selectedTypeId == None
    {
      types := RemoveId(types, id);
      Select(None);
    }

    method SetType(id: string, p: TypePatch)
      modifies this`types
      ensures types == PatchFirst(old(types), id, p)
    {
      types := PatchFirst(types, id, p);
    }

    method ToggleVisibility(id: string)
      modifies this`hiddenTypes
      ensures hiddenTypes == Toggle(old(hiddenTypes), id)
    {
      hiddenTypes := Toggle(hiddenTypes, id);
    }

    method ResetVisibility()
      modifies this`hiddenTypes
      ensures hiddenTypes == []
    {
      hiddenTypes := [];
    }
  }
}
