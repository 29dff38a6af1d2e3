/** The `FilterChips` component's state and operations: the selection, the search term,
    the show-all flag, and the `onChipClick` notifications that carry the filtered records. */
module Controller {
  import opened Seqs
  import opened Matcher
  import opened Chips
  import opened Selection
  import opened View

  /** One call of `onChipClick(chip, filteredData)`; `clearAll` passes an empty object,
      modelled as `None`. */
  datatype Notification = Notification(chip: Option<Chip>, records: seq<Record>)

  /** `chips.filter(chip => newActiveChips.includes(chip.id))`: the active chip objects,
      in chip-list order. */
  function ActiveChipObjects(chips: seq<Chip>, active: seq<string>): (r: seq<Chip>)
    ensures |r| <= |chips|
  {
    Filter(chips, (c: Chip) => c.id in active)
  }

  /** The active chip objects are the chips whose id is selected, in chip-list order. */
  lemma ActiveChipObjectsSpec(chips: seq<Chip>, active: seq<string>)
    ensures IsSubsequence(ActiveChipObjects(chips, active), chips)
    ensures forall c :: c in ActiveChipObjects(chips, active) <==> c in chips && c.id in active
    ensures forall c :: multiset(ActiveChipObjects(chips, active))[c]
                         == if c.id in active then multiset(chips)[c] else 0
  {
    FilterMembers(chips, (c: Chip) => c.id in active);
    FilterCount(chips, (c: Chip) => c.id in active);
  }

  /** The multi-select `reduce`: match the chips one after the other, left to right,
      each step narrowing the previous step's records. */
  function FoldMatch(data: seq<Record>, fk: FilterKey, cs: seq<Chip>): seq<Record>
    decreases |cs|
  {
    if cs == [] then data
    else Match(FoldMatch(data, fk, cs[..|cs| - 1]), fk, cs[|cs| - 1].value)
  }

  /** The `reduce` of the multi-select branch: starting from `data`, match the records
      against each chip of `cs` in turn. */
  method ReduceByChips(data: seq<Record>, fk: FilterKey, cs: seq<Chip>) returns (r: seq<Record>)
    ensures r == FoldMatch(data, fk, cs)
  {
    r := data;
    var i := 0;
    while i < |cs|
      invariant 0 <= i <= |cs|
      invariant r == FoldMatch(data, fk, cs[..i])
    {
      assert cs[..i + 1][..i] == cs[..i];
      r := Match(r, fk, cs[i].value);
      i := i + 1;
    }
    assert cs[..i] == cs;
  }

  /** A record passes every chip of `cs`. */
  predicate MatchesAll(r: Record, fk: FilterKey, cs: seq<Chip>)
  {
    forall c :: c in cs ==> RecordMatches(r, fk, c.value)
  }

  /** AND across chips: the fold keeps exactly the records that match every chip. */
  lemma {:induction false} FoldMatchIsAnd(data: seq<Record>, fk: FilterKey, cs: seq<Chip>)
    ensures FoldMatch(data, fk, cs) == Filter(data, x => MatchesAll(x, fk, cs))
    decreases |cs|
  {
    if cs == [] {
      FilterKeepsAll(data, x => MatchesAll(x, fk, cs));
    } else {
      var init, last := cs[..|cs| - 1], cs[|cs| - 1];
      assert cs == init + [last];
      FoldMatchIsAnd(data, fk, init);
      var before := FoldMatch(data, fk, init);
      assert forall x :: MatchesAll(x, fk, cs) == (MatchesAll(x, fk, init) && RecordMatches(x, fk, last.value)) by {
        forall x ensures MatchesAll(x, fk, cs) == (MatchesAll(x, fk, init) && RecordMatches(x, fk, last.value)) {
          assert forall c :: c in cs <==> c in init || c == last;
        }
      }
      FilterCompose(data, x => MatchesAll(x, fk, init), x => RecordMatches(x, fk, last.value), x => MatchesAll(x, fk, cs));
      if before == [] {
        assert Filter(before, x => RecordMatches(x, fk, last.value)) == [];
      }
    }
  }

  /** Activation order does not matter in multi-select: two chip lists with the same
      members produce the same records. */
  lemma FoldMatchOrderIrrelevant(data: seq<Record>, fk: FilterKey, cs1: seq<Chip>, cs2: seq<Chip>)
    requires forall c :: c in cs1 <==> c in cs2
    ensures FoldMatch(data, fk, cs1) == FoldMatch(data, fk, cs2)
  {
    FoldMatchIsAnd(data, fk, cs1);
    FoldMatchIsAnd(data, fk, cs2);
    FilterExt(data, x => MatchesAll(x, fk, cs1), x => MatchesAll(x, fk, cs2));
  }

  /** The records `toggleChip` hands to `onChipClick` once `active` is the new selection. */
  function FilteredData(chips: seq<Chip>, data: seq<Record>, fk: FilterKey, multiSelect: bool,
                        active: seq<string>): (r: seq<Record>)
    ensures (forall c :: c in chips ==> c.id !in active) ==> r == data
  {
    var objs := ActiveChipObjects(chips, active);
    ActiveChipObjectsSpec(chips, active);
    assert objs != [] ==> objs[0] in objs;
    if |objs| == 0 then data
    else if multiSelect then FoldMatch(data, fk, objs)
    else Match(data, fk, objs[|objs| - 1].value)
  }

  /** The reported records are always drawn from the data in order; in multi-select they
      are exactly the records that match every selected chip. */
  lemma FilteredDataSpec(chips: seq<Chip>, data: seq<Record>, fk: FilterKey, multiSelect: bool,
                         active: seq<string>)
    ensures IsSubsequence(FilteredData(chips, data, fk, multiSelect, active), data)
    ensures multiSelect ==>
              forall x :: x in FilteredData(chips, data, fk, multiSelect, active)
                <==> x in data && forall c :: c in chips && c.id in active ==> RecordMatches(x, fk, c.value)
  {
    var objs := ActiveChipObjects(chips, active);
    ActiveChipObjectsSpec(chips, active);
    if |objs| == 0 {
      SelfIsSubsequence(data);
      assert forall c :: !(c in chips && c.id in active);
    } else if multiSelect {
      FoldMatchIsAnd(data, fk, objs);
      FilterMembers(data, x => MatchesAll(x, fk, objs));
    } else {
      MatchSpec(data, fk, objs[|objs| - 1].value);
    }
  }

  /** Single-select: the records are one match of the original data against the chip
      just selected, or all the data when the click cleared the selection. */
  lemma SingleSelectFilteredData(chips: seq<Chip>, data: seq<Record>, fk: FilterKey,
                                 active: seq<string>, id: string)
    ensures var next := ToggleSingle(active, id);
            var objs := ActiveChipObjects(chips, next);
            FilteredData(chips, data, fk, false, next)
              == if objs == [] then data else Match(data, fk, objs[|objs| - 1].value)
    ensures var next := ToggleSingle(active, id);
            forall c :: c in ActiveChipObjects(chips, next) ==> c.id == id && id !in active
  {
    ActiveChipObjectsSpec(chips, ToggleSingle(active, id));
  }

  class FilterChips {
    /** The props. React re-renders the component with new props at any time, and the
        state below survives that (`Rerender`). */
    var chips: seq<Chip>
    var data: seq<Record>
    var filterKey: FilterKey
    var multiSelect: bool
    /** The `maxChips` prop; 0 stands for "not set". */
    var maxChips: nat
    var searchable: bool

    var activeChips: seq<string>
    var searchTerm: string
    var showAll: bool
    /** Every `onChipClick` call so far, oldest first. */
    var notifications: seq<Notification>

    /** `isActive(chipId)`: the id is in the selection. */
    predicate IsActive(chipId: string)
      reads this
    {
      chipId in activeChips
    }

    /** Mounting the component: the chips flagged `active` start selected. */
    constructor (chips: seq<Chip>, data: seq<Record>, filterKey: FilterKey, multiSelect: bool,
                 maxChips: nat, searchable: bool)
      ensures this.chips == chips && this.data == data && this.filterKey == filterKey
      ensures this.multiSelect == multiSelect && this.maxChips == maxChips && this.searchable == searchable
      ensures activeChips == InitialActive(chips)
      ensures forall id :: IsActive(id) <==> exists c :: c in chips && c.active && c.id == id
      ensures searchTerm == [] && !showAll && notifications == []
    {
      this.chips := chips;
      this.data := data;
      this.filterKey := filterKey;
      this.multiSelect := multiSelect;
      this.maxChips := maxChips;
      this.searchable := searchable;
      activeChips := InitialActive(chips);
      searchTerm := [];
      showAll := false;
      notifications := [];
      InitialActiveSpec(chips);
    }

    /** A re-render with new props: the selection, the search term, `showAll` and the
        reports so far are kept, so a selected id whose chip is gone stays selected. */
    method Rerender(chips: seq<Chip>, data: seq<Record>, filterKey: FilterKey, multiSelect: bool,
                    maxChips: nat, searchable: bool)
      modifies this`chips, this`data, this`filterKey, this`multiSelect, this`maxChips, this`searchable
      ensures this.chips == chips && this.data == data && this.filterKey == filterKey
      ensures this.multiSelect == multiSelect && this.maxChips == maxChips && this.searchable == searchable
      ensures activeChips == old(activeChips) && searchTerm == old(searchTerm) && showAll == old(showAll)
      ensures notifications == old(notifications)
    {
      this.chips := chips;
      this.data := data;
      this.filterKey := filterKey;
      this.multiSelect := multiSelect;
      this.maxChips := maxChips;
      this.searchable := searchable;
    }

    /** The chips the component shows. */
    function VisibleChips(): (r: seq<Chip>)
      reads this
      ensures IsSubsequence(r, chips)
      ensures Searching(searchable, searchTerm) ==> forall c :: c in r ==> LabelMatches(c, searchTerm)
    {
      var r := Visible(chips, searchable, searchTerm, maxChips, showAll);
      assert forall c :: c in r ==> Searching(searchable, searchTerm) ==> LabelMatches(c, searchTerm) by {
        forall c | c in r ensures Searching(searchable, searchTerm) ==> LabelMatches(c, searchTerm) {
          VisibleChipsMatch(chips, searchable, searchTerm, maxChips, showAll, c);
        }
      }
      r
    }

    /** `toggleChip(chipId)`: apply the selection policy, filter the data by the new
        selection, notify if the id names a chip, and store the new selection. The props,
        the search term and `showAll` are outside its frame. */
    method ToggleChip(chipId: string)
      modifies this`activeChips, this`notifications
      ensures activeChips == NextActive(old(activeChips), chipId, multiSelect)
      ensures IsActive(chipId) <==> !old(IsActive(chipId))
      ensures multiSelect ==> forall y :: y != chipId ==> (IsActive(y) <==> old(IsActive(y)))
      ensures !multiSelect ==> forall y :: IsActive(y) ==> y == chipId
      ensures notifications == old(notifications) +
                (match FindChip(chips, chipId)
                 case Some(c) => [Notification(Some(c), FilteredData(chips, data, filterKey, multiSelect, activeChips))]
                 case None => [])
    {
      var newActiveChips := NextActive(activeChips, chipId, multiSelect);
      if multiSelect {
        MultiToggleFlipsOnlyId(activeChips, chipId);
      }
      var activeChipObjects := ActiveChipObjects(chips, newActiveChips);
      var filteredData := data;
      if |activeChipObjects| > 0 {
        if multiSelect {
          filteredData := ReduceByChips(data, filterKey, activeChipObjects);
        } else {
          var lastChip := activeChipObjects[|activeChipObjects| - 1];
          filteredData := Match(data, filterKey, lastChip.value);
        }
      }
      var clickedChip := FindChip(chips, chipId);
      if clickedChip.Some? {
        notifications := notifications + [Notification(clickedChip, filteredData)];
      }
      activeChips := newActiveChips;
    }

    /** `clearAll()`: empty the selection and notify with the unfiltered data. */
    method ClearAll()
      modifies this`activeChips, this`notifications
      ensures activeChips == []
      ensures forall id :: !IsActive(id)
      ensures notifications == old(notifications) + [Notification(None, data)]
    {
      activeChips := [];
      notifications := notifications + [Notification(None, data)];
    }

    /** `handleSearchChange`: store the text of the search box. */
    method SetSearchTerm(term: string)
      modifies this`searchTerm
      ensures searchTerm == term
    {
      searchTerm := term;
    }

    /** `toggleShowAll`: flip the "show more / show less" flag. */
    method ToggleShowAll()
      modifies this`showAll
      ensures showAll == !old(showAll)
    {
      showAll := !showAll;
    }
  }
}
