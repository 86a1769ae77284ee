/** The relation list (`RelationList.jsx`): the relationship-type filter and the handlers that
    open and close the interaction view and the relation form. */
module RelationList {
  import opened Wrappers
  import opened Json
  import opened RelationCard

  /** The types that are not "Others". */
  const NamedTypes: seq<string> := ["Friends", "Family", "Work"]

  /** A filter that is set: not undefined and not the empty string. */
  predicate Active(filterType: Option<string>) {
    filterType.Some? && filterType.value != []
  }

  /** Whether a set filter keeps a relation: "Others" keeps every relation whose type is none of
      the named ones (a missing type included), any other filter keeps exactly its own type. */
  predicate Matches(filterType: string, r: Relation) {
    if filterType == "Others" then !(r.relationshipType.Some? && r.relationshipType.value in NamedTypes)
    else r.relationshipType == Some(filterType)
  }

  /** `xs` is `ys` with some elements left out, the rest in their order. */
  predicate Subsequence<T(==)>(xs: seq<T>, ys: seq<T>)
    decreases |ys|
  {
    if xs == [] then true
    else if ys == [] then false
    else if xs[0] == ys[0] then Subsequence(xs[1..], ys[1..])
    else Subsequence(xs, ys[1..])
  }

  /** `relations.filter(...)` under a set filter. */
  function Keep(relations: seq<Relation>, filterType: string): (r: seq<Relation>)
    ensures Subsequence(r, relations)
    ensures forall x :: x in r <==> x in relations && Matches(filterType, x)
    ensures |r| <= |relations|
  {
    if relations == [] then []
    else
      var rest := Keep(relations[1..], filterType);
      if Matches(filterType, relations[0]) then
        var r := [relations[0]] + rest;
        assert r[0] == relations[0] && r[1..] == rest;
        r
      else
        assert rest != [] ==> rest[0] in rest;
        rest
  }

  /** Every list is a subsequence of itself. */
  lemma {:induction false} SubsequenceOfItself<T>(xs: seq<T>)
    ensures Subsequence(xs, xs)
  {
    if xs != [] {
      SubsequenceOfItself(xs[1..]);
    }
  }

  /** The filter effect: the relations shown for a filter, all of them when it is not set. */
  function Filter(relations: seq<Relation>, filterType: Option<string>): (r: seq<Relation>)
    ensures !Active(filterType) ==> r == relations
    ensures Subsequence(r, relations)
    ensures Active(filterType) ==> forall x :: x in r <==> x in relations && Matches(filterType.value, x)
  {
    if Active(filterType) then Keep(relations, filterType.value)
    else
      SubsequenceOfItself(relations);
      relations
  }

  /** Every relation is kept by exactly one of the Work, Family, Friends and Others filters. */
  lemma ExactlyOneFilter(r: Relation)
    ensures Matches("Others", r) <==> !Matches("Work", r) && !Matches("Family", r) && !Matches("Friends", r)
    ensures !(Matches("Work", r) && Matches("Family", r)) && !(Matches("Work", r) && Matches("Friends", r))
            && !(Matches("Family", r) && Matches("Friends", r))
  {
  }

  /** The Work, Family, Friends and Others filters partition the list: their sizes add up to
      the size of the whole list. */
  lemma {:induction false} FiltersPartition(relations: seq<Relation>)
    ensures |Keep(relations, "Work")| + |Keep(relations, "Family")| + |Keep(relations, "Friends")|
            + |Keep(relations, "Others")| == |relations|
  {
    if relations != [] {
      FiltersPartition(relations[1..]);
      ExactlyOneFilter(relations[0]);
    }
  }

  /** The example relations the list starts with. */
  const SampleRelations: seq<Relation> := [
    Relation(Some(JNum(1)), Some("John Doe"), Some("Friends"), Some("New York"),
             Some("johndoe@example.com"), Some("123-456-7890"), Some("2023-04-01")),
    Relation(Some(JNum(2)), Some("Jane Smith"), Some("Colleague"), Some("San Francisco"),
             Some("janesmith@example.com"), Some("987-654-3210"), Some("2023-03-15")),
    Relation(Some(JNum(3)), Some("Alice Johnson"), Some("Family"), Some("Los Angeles"),
             Some("alicejohnson@example.com"), Some("555-123-4567"), Some("2023-02-10"))
  ]

  /** On the example data the "Colleague" relation appears only under "Others", and nobody
      appears under "Work". */
  lemma SampleFilters()
    ensures Filter(SampleRelations, Some("Others")) == [SampleRelations[1]]
    ensures Filter(SampleRelations, Some("Work")) == []
    ensures Filter(SampleRelations, Some("Friends")) == [SampleRelations[0]]
  {
    assert Keep(SampleRelations[2..], "Others") == [];
    assert Keep(SampleRelations[1..], "Others") == [SampleRelations[1]];
    assert Keep(SampleRelations[2..], "Friends") == [];
    assert Keep(SampleRelations[1..], "Friends") == [];
  }

  /** The list's state cells. */
  class RelationList {
    var relations: seq<Relation>
    var filteredRelations: seq<Relation>
    var showForm: bool
    var editRelation: Option<Relation>
    var selectedRelation: Option<Relation>
    var showInteractionView: bool

    /** The interaction view is open exactly when a relation is selected. */
    predicate Valid()
      reads this
    {
      showInteractionView <==> selectedRelation.Some?
    }

    /** The interaction view renders (`showInteractionView && selectedRelation`). */
    predicate ShowsInteractionView()
      reads this
    {
      showInteractionView && selectedRelation.Some?
    }

    /** The first render: the example relations, the filter effect applied. */
    constructor(filterType: Option<string>)
      ensures Valid() && !ShowsInteractionView() && !showForm && editRelation.None?
      ensures relations == SampleRelations && filteredRelations == Filter(SampleRelations, filterType)
    {
      relations := SampleRelations;
      filteredRelations := SampleRelations;
      showForm := false;
      editRelation := None;
      selectedRelation := None;
      showInteractionView := false;
      new;
      ApplyFilter(filterType);
    }

    /** The filter effect, run when the filter or the relations change. */
    method ApplyFilter(filterType: Option<string>)
      modifies this
      ensures filteredRelations == Filter(relations, filterType)
      ensures relations == old(relations) && showForm == old(showForm) && editRelation == old(editRelation)
      ensures selectedRelation == old(selectedRelation) && showInteractionView == old(showInteractionView)
    {
      if Active(filterType) {
        filteredRelations := Keep(relations, filterType.value);
      } else {
        filteredRelations := relations;
      }
    }

    /** `handleCreate`: the form opens for a new relation. */
    method HandleCreate()
      modifies this
      ensures editRelation.None? && showForm
      ensures relations == old(relations) && filteredRelations == old(filteredRelations)
      ensures selectedRelation == old(selectedRelation) && showInteractionView == old(showInteractionView)
    {
      editRelation := None;
      showForm := true;
    }

    /** `handleFormSuccess` and the form's cancel: the form closes. */
    method CloseForm()
      modifies this
      ensures !showForm
      ensures relations == old(relations) && filteredRelations == old(filteredRelations) && editRelation == old(editRelation)
      ensures selectedRelation == old(selectedRelation) && showInteractionView == old(showInteractionView)
    {
      showForm := false;
    }

    /** A card's edit button: only the relation to edit is recorded; the form is not opened. */
    method HandleEdit(r: Relation)
      modifies this
      ensures editRelation == Some(r)
      ensures relations == old(relations) && filteredRelations == old(filteredRelations) && showForm == old(showForm)
      ensures selectedRelation == old(selectedRelation) && showInteractionView == old(showInteractionView)
    {
      editRelation := Some(r);
    }

    /** `handleRelationClick`: the clicked relation is selected and its interaction view opens. */
    method HandleRelationClick(r: Relation)
      requires Valid()
      modifies this
      ensures Valid() && ShowsInteractionView() && selectedRelation == Some(r)
      ensures relations == old(relations) && filteredRelations == old(filteredRelations)
      ensures showForm == old(showForm) && editRelation == old(editRelation)
    {
      selectedRelation := Some(r);
      showInteractionView := true;
    }

    /** `closeInteractionView`: the view closes and the selection is cleared. */
    method CloseInteractionView()
      requires Valid()
      modifies this
      ensures Valid() && !ShowsInteractionView() && selectedRelation.None?
      ensures relations == old(relations) && filteredRelations == old(filteredRelations)
      ensures showForm == old(showForm) && editRelation == old(editRelation)
    {
      showInteractionView := false;
      selectedRelation := None;
    }
  }
}
