/** The chips the caller supplies, and the two look-ups the engine makes over them. */
module Chips {
  import opened Seqs
  import opened Matcher

  datatype Option<T> = None | Some(value: T)

  /** A `FilterChip`: its identifier, its label (`labelText`, since `label` is a Dafny keyword), the value it filters by, and its
      `active` and `disabled` flags (absent flags are `false`). Colours are left out. */
  datatype Chip = Chip(id: string, labelText: string, value: Atom, active: bool, disabled: bool)

  /** `chips.map(chip => chip.id)`. */
  function Ids(cs: seq<Chip>): (r: seq<string>)
    ensures |r| == |cs|
    ensures forall i :: 0 <= i < |cs| ==> r[i] == cs[i].id
  {
    seq(|cs|, i requires 0 <= i < |cs| => cs[i].id)
  }

  /** The initial `activeChips`: the ids of the chips flagged `active`, in chip order. */
  function InitialActive(chips: seq<Chip>): (r: seq<string>)
    ensures |r| <= |chips|
  {
    Ids(Filter(chips, (c: Chip) => c.active))
  }

  /** An id starts selected exactly when some chip with that id is flagged `active`. */
  lemma InitialActiveSpec(chips: seq<Chip>)
    ensures forall id :: id in InitialActive(chips) <==> exists c :: c in chips && c.active && c.id == id
  {
    var flagged := Filter(chips, (c: Chip) => c.active);
    var r := InitialActive(chips);
    FilterMembers(chips, (c: Chip) => c.active);
    forall id ensures id in r <==> exists c :: c in chips && c.active && c.id == id {
      if id in r {
        var i :| 0 <= i < |r| && r[i] == id;
        assert flagged[i] in flagged;
      }
      if exists c :: c in chips && c.active && c.id == id {
        var c :| c in chips && c.active && c.id == id;
        var i :| 0 <= i < |flagged| && flagged[i] == c;
        assert r[i] == id;
      }
    }
  }

  /** `chips.find(chip => chip.id === id)`. */
  function FindChip(chips: seq<Chip>, id: string): (r: Option<Chip>)
    ensures r.Some? ==> r.value in chips && r.value.id == id
    decreases |chips|
  {
    if chips == [] then None
    else if chips[0].id == id then Some(chips[0])
    else FindChip(chips[1..], id)
  }

  /** The look-up fails exactly when no chip has the id, and otherwise yields the FIRST chip
      with it. */
  lemma {:induction false} FindChipSpec(chips: seq<Chip>, id: string)
    ensures FindChip(chips, id).None? <==> forall c :: c in chips ==> c.id != id
    ensures FindChip(chips, id).Some? ==>
              exists i :: 0 <= i < |chips| && chips[i] == FindChip(chips, id).value
                          && forall j :: 0 <= j < i ==> chips[j].id != id
    decreases |chips|
  {
    if chips != [] && chips[0].id != id {
      FindChipSpec(chips[1..], id);
      assert forall c :: c in chips ==> c == chips[0] || c in chips[1..];
      var r := FindChip(chips[1..], id);
      if r.Some? {
        var i :| 0 <= i < |chips[1..]| && chips[1..][i] == r.value
                 && forall j :: 0 <= j < i ==> chips[1..][j].id != id;
        assert chips[i + 1] == r.value;
        forall j | 0 <= j < i + 1 ensures chips[j].id != id {
          if j > 0 { assert chips[j] == chips[1..][j - 1]; }
        }
      }
    } else if chips != [] {
      assert chips[0] in chips;
    }
  }
}
