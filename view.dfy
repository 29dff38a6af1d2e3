/** The `filteredChips` derivation: the chips shown, after the label search and the
    `maxChips` truncation. It never changes the selection or the filtered records. */
module View {
  import opened Seqs
  import opened Chips

  /** `toLowerCase` on one character, for the ASCII letters. */
  function Lower(c: char): char
  {
    if 'A' <= c <= 'Z' then (c as int + 32) as char else c
  }

  function LowerStr(s: string): (r: string)
    ensures |r| == |s|
  {
    seq(|s|, i requires 0 <= i < |s| => Lower(s[i]))
  }

  /** `String.prototype.includes`: `sub` occurs in `s` at some position. */
  predicate Includes(s: string, sub: string)
  {
    exists i :: 0 <= i <= |s| && sub <= s[i..]
  }

  /** The label test of the search box: case-insensitive substring. */
  predicate LabelMatches(c: Chip, term: string)
  {
    Includes(LowerStr(c.labelText), LowerStr(term))
  }

  /** Whether the search narrows the chips at all: `searchable && state.searchTerm`. */
  predicate Searching(searchable: bool, term: string)
  {
    searchable && term != []
  }

  /** Step one of `filteredChips`: the chips whose label contains the search term. */
  function SearchFiltered(chips: seq<Chip>, searchable: bool, term: string): (r: seq<Chip>)
    ensures IsSubsequence(r, chips)
    ensures Searching(searchable, term) ==>
              forall c :: multiset(r)[c] == if LabelMatches(c, term) then multiset(chips)[c] else 0
    ensures !Searching(searchable, term) ==> r == chips
  {
    if Searching(searchable, term) then
      FilterCount(chips, c => LabelMatches(c, term));
      Filter(chips, c => LabelMatches(c, term))
    else
      SelfIsSubsequence(chips);
      chips
  }

  /** `filteredChips`: the search result, cut to its first `maxChips` elements unless
      `showAll` is set or `maxChips` is unset (0). */
  function Visible(chips: seq<Chip>, searchable: bool, term: string, maxChips: nat, showAll: bool): (r: seq<Chip>)
    ensures IsSubsequence(r, chips)
    ensures r <= SearchFiltered(chips, searchable, term)
    ensures |r| == if maxChips > 0 && !showAll && maxChips < |SearchFiltered(chips, searchable, term)|
                   then maxChips else |SearchFiltered(chips, searchable, term)|
  {
    var found := SearchFiltered(chips, searchable, term);
    if maxChips > 0 && !showAll && maxChips < |found| then
      PrefixOfSubsequence(found, chips, maxChips);
      found[..maxChips]
    else found
  }

  /** Every visible chip is a supplied chip, and while searching its label contains the term. */
  lemma VisibleChipsMatch(chips: seq<Chip>, searchable: bool, term: string, maxChips: nat, showAll: bool, c: Chip)
    requires c in Visible(chips, searchable, term, maxChips, showAll)
    ensures c in chips
    ensures Searching(searchable, term) ==> LabelMatches(c, term)
  {
    var found := SearchFiltered(chips, searchable, term);
    var r := Visible(chips, searchable, term, maxChips, showAll);
    assert c in found by {
      var i :| 0 <= i < |r| && r[i] == c;
      assert found[i] == c;
    }
    assert multiset(found)[c] > 0;
  }

  /** "Show more": with `showAll` set the whole search result is visible, and the truncated
      list is a prefix of it. */
  lemma ShowAllRestores(chips: seq<Chip>, searchable: bool, term: string, maxChips: nat)
    ensures Visible(chips, searchable, term, maxChips, true) == SearchFiltered(chips, searchable, term)
    ensures Visible(chips, searchable, term, maxChips, false) <= Visible(chips, searchable, term, maxChips, true)
  {
  }

  /** The search ignores letter case: terms that lower-case alike show the same chips. */
  lemma SearchIgnoresCase(chips: seq<Chip>, searchable: bool, t1: string, t2: string)
    requires LowerStr(t1) == LowerStr(t2)
    ensures SearchFiltered(chips, searchable, t1) == SearchFiltered(chips, searchable, t2)
  {
    assert |t1| == |t2|;
    if Searching(searchable, t1) {
      FilterExt(chips, c => LabelMatches(c, t1), c => LabelMatches(c, t2));
    }
  }
}
