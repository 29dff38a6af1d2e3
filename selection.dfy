/** How `toggleChip` computes the new `activeChips` list under the two selection policies. */
module Selection {
  import opened Seqs

  /** Multi-select: remove every occurrence of an active id, or append an inactive one. */
  function ToggleMulti(active: seq<string>, id: string): (r: seq<string>)
    ensures id in r <==> id !in active
  {
    if id in active then
      FilterMembers(active, y => y != id);
      Filter(active, y => y != id)
    else
      active + [id]
  }

  /** Toggling an active id removes all its occurrences and keeps every other id, each as
      often as before and in the same relative order; toggling an inactive id appends it. */
  lemma ToggleMultiSpec(active: seq<string>, id: string)
    ensures id in active ==> IsSubsequence(ToggleMulti(active, id), active)
    ensures id in active ==>
              forall y :: y != id ==> multiset(ToggleMulti(active, id))[y] == multiset(active)[y]
    ensures id !in active ==>
              var r := ToggleMulti(active, id);
              |r| == |active| + 1 && r[..|active|] == active && r[|active|] == id
  {
    if id in active {
      FilterCount(active, y => y != id);
    }
  }

  /** Single-select: clear the selection if the id is in it, otherwise select only the id. */
  function ToggleSingle(active: seq<string>, id: string): (r: seq<string>)
    ensures |r| <= 1
    ensures r == [] <==> id in active
    ensures forall y :: y in r ==> y == id
  {
    if id in active then [] else [id]
  }

  /** The `newActiveChips` of `toggleChip`. */
  function NextActive(active: seq<string>, id: string, multiSelect: bool): (r: seq<string>)
    ensures !multiSelect ==> |r| <= 1
  {
    if multiSelect then ToggleMulti(active, id) else ToggleSingle(active, id)
  }

  /** Multi-select: a toggle flips whether the id is selected and no other id's. */
  lemma MultiToggleFlipsOnlyId(active: seq<string>, id: string)
    ensures id in NextActive(active, id, true) <==> id !in active
    ensures forall y :: y != id ==> (y in NextActive(active, id, true) <==> y in active)
  {
    var r := NextActive(active, id, true);
    ToggleMultiSpec(active, id);
    forall y | y != id ensures y in r <==> y in active {
      if id in active {
        assert y in r <==> multiset(r)[y] > 0;
        assert y in active <==> multiset(active)[y] > 0;
      } else {
        assert r == active + [id];
      }
    }
  }

  /** Multi-select: toggling an inactive id twice restores the original list. */
  lemma ToggleMultiTwice(active: seq<string>, id: string)
    requires id !in active
    ensures ToggleMulti(ToggleMulti(active, id), id) == active
  {
    var once := ToggleMulti(active, id);
    assert once == active + [id];
    FilterAppend(active, [id], y => y != id);
    FilterKeepsAll(active, y => y != id);
  }

  /** Single-select: clicking the chip that is the sole selection clears it, and a second
      click on any id undoes the first whenever the selection was empty or only that id. */
  lemma ToggleSingleTwice(active: seq<string>, id: string)
    requires active == [] || active == [id]
    ensures ToggleSingle(ToggleSingle(active, id), id) == active
  {
  }
}
