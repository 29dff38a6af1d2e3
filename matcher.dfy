/** The default filter function: keeps the records whose field (or any of several
    fields) holds the chip's value, by equality for plain values and by membership
    for array values. */
module Matcher {
  import opened Seqs

  /** A plain JavaScript value a chip can carry and a record field can hold. */
  datatype Atom = Str(s: string) | Num(n: int) | Bool(b: bool) | Null

  /** What reading one field of a record yields: a plain value, an array of plain
      values, or `undefined` when the record has no such field. */
  datatype Value = Scalar(a: Atom) | Arr(items: seq<Atom>) | Undefined

  /** A record of the caller's data collection, from field name to value. */
  type Record = map<string, Value>

  /** The `filterKey` prop: one field name, or a list of field names. */
  datatype FilterKey = Single(key: string) | Keys(keys: seq<string>)

  /** `item[key]`: a missing field reads as `undefined`. */
  function FieldOf(r: Record, key: string): Value
  {
    if key in r then r[key] else Undefined
  }

  /** One field against the chip value: membership when the field is an array,
      strict equality otherwise; `undefined` never equals an atom. */
  predicate FieldMatches(v: Value, target: Atom)
  {
    match v
    case Arr(xs) => target in xs
    case Scalar(a) => a == target
    case Undefined => false
  }

  /** A record is kept when its single key matches, or when SOME key of the list does. */
  predicate RecordMatches(r: Record, fk: FilterKey, target: Atom)
  {
    match fk
    case Single(k) => FieldMatches(FieldOf(r, k), target)
    case Keys(ks) => exists k :: k in ks && FieldMatches(FieldOf(r, k), target)
  }

  /** `defaultFilterFunction(data, filterKey, chipValue)`. */
  function Match(data: seq<Record>, fk: FilterKey, target: Atom): (r: seq<Record>)
    ensures data == [] ==> r == []
    ensures |r| <= |data|
  {
    if |data| == 0 then []
    else Filter(data, x => RecordMatches(x, fk, target))
  }

  /** The matcher keeps the matching records and only those, every copy of each, in their
      original order. */
  lemma MatchSpec(data: seq<Record>, fk: FilterKey, target: Atom)
    ensures IsSubsequence(Match(data, fk, target), data)
    ensures forall x :: x in Match(data, fk, target) <==> x in data && RecordMatches(x, fk, target)
    ensures forall x :: multiset(Match(data, fk, target))[x]
                         == if RecordMatches(x, fk, target) then multiset(data)[x] else 0
  {
    FilterMembers(data, x => RecordMatches(x, fk, target));
    FilterCount(data, x => RecordMatches(x, fk, target));
    if data == [] {
      EmptyIsSubsequence(data);
    }
  }

  /** Matching again with the same chip changes nothing. */
  lemma MatchIdempotent(data: seq<Record>, fk: FilterKey, target: Atom)
    ensures Match(Match(data, fk, target), fk, target) == Match(data, fk, target)
  {
    var m := Match(data, fk, target);
    MatchSpec(data, fk, target);
    if m != [] {
      FilterKeepsAll(m, x => RecordMatches(x, fk, target));
    }
  }

  /** Matching two chips one after the other is matching both: the order does not matter. */
  lemma MatchBoth(data: seq<Record>, fk: FilterKey, a: Atom, b: Atom)
    ensures Match(Match(data, fk, a), fk, b)
         == Filter(data, x => RecordMatches(x, fk, a) && RecordMatches(x, fk, b))
    ensures Match(Match(data, fk, a), fk, b) == Match(Match(data, fk, b), fk, a)
  {
    var pa := x => RecordMatches(x, fk, a);
    var pb := x => RecordMatches(x, fk, b);
    var both := x => RecordMatches(x, fk, a) && RecordMatches(x, fk, b);
    var both' := x => RecordMatches(x, fk, b) && RecordMatches(x, fk, a);
    FilterCompose(data, pa, pb, both);
    FilterCompose(data, pb, pa, both');
    FilterExt(data, both, both');
  }

  /** A one-element key list behaves as that single key, and an empty key list keeps nothing. */
  lemma KeyListOfOne(data: seq<Record>, k: string, target: Atom)
    ensures Match(data, Keys([k]), target) == Match(data, Single(k), target)
    ensures Match(data, Keys([]), target) == []
  {
    FilterExt(data, x => RecordMatches(x, Keys([k]), target), x => RecordMatches(x, Single(k), target));
    MatchSpec(data, Keys([]), target);
  }

  /** OR across keys: a key list matches when either part of it does. */
  lemma KeyListUnion(r: Record, ks1: seq<string>, ks2: seq<string>, target: Atom)
    ensures RecordMatches(r, Keys(ks1 + ks2), target)
        <==> RecordMatches(r, Keys(ks1), target) || RecordMatches(r, Keys(ks2), target)
  {
    if RecordMatches(r, Keys(ks1 + ks2), target) {
      var k :| k in ks1 + ks2 && FieldMatches(FieldOf(r, k), target);
      assert k in ks1 || k in ks2;
    }
  }
}
