/** The marking-type store's state, its initial value and the projection
    that is persisted to disk. */
module MarkingTypesState {
  import opened Wrappers
  import opened Markings

  datatype State = State(selectedTypeId: Option<string>, types: seq<MarkingType>, hiddenTypes: seq<string>)

  const Initial: State := State(None, [], [])

  /** The persisted part (`partialize`): only the type list. */
  datatype Persisted = Persisted(types: seq<MarkingType>)

  function Partialize(s: State): (p: Persisted)
    ensures p.types == s.types
  {
    Persisted(s.types)
  }

  /** The selection and the hidden list never reach the disk: states that
      differ only there persist identically. */
  lemma PersistenceIgnoresSelectionAndVisibility(s: State, sel: Option<string>, hidden: seq<string>)
    ensures Partialize(s.(selectedTypeId := sel, hiddenTypes := hidden)) == Partialize(s)
  {
  }
}
