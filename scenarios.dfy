/** Concrete runs of the model. Some replay cases of the component's test file on its
    fixtures; others use small data of their own or arbitrary chips and records. */
module Scenarios {
  import opened Seqs
  import opened Matcher
  import opened Chips
  import opened Selection
  import opened Controller
  import opened View

  function John(): Record
  {
    map["id" := Scalar(Num(1)), "name" := Scalar(Str("John")), "category" := Scalar(Str("Developer")),
        "skills" := Arr([Str("React"), Str("TypeScript")])]
  }

  function Jane(): Record
  {
    map["id" := Scalar(Num(2)), "name" := Scalar(Str("Jane")), "category" := Scalar(Str("Designer")),
        "skills" := Arr([Str("Figma"), Str("Sketch")])]
  }

  function Bob(): Record
  {
    map["id" := Scalar(Num(3)), "name" := Scalar(Str("Bob")), "category" := Scalar(Str("Developer")),
        "skills" := Arr([Str("Vue"), Str("JavaScript")])]
  }

  function MockChips(): seq<Chip>
  {
    [Chip("dev", "Developers", Str("Developer"), false, false),
     Chip("design", "Designers", Str("Designer"), false, false),
     Chip("react", "React", Str("React"), false, false)]
  }

  /** No mock chip starts active, and the ids resolve to their chips. */
  lemma MockChipsLookups()
    ensures InitialActive(MockChips()) == []
    ensures FindChip(MockChips(), "dev") == Some(MockChips()[0])
    ensures FindChip(MockChips(), "design") == Some(MockChips()[1])
  {
    var chips := MockChips();
    assert chips[1..] == [chips[1], chips[2]] && chips[1..][1..] == [chips[2]];
    assert Filter(chips, (c: Chip) => c.active) == [];
  }

  /** With the key list `['category', 'skills']`, the React chip keeps John through his
      skills array although his category does not match. */
  lemma KeyListScenario()
    ensures Match([John(), Jane(), Bob()], Keys(["category", "skills"]), Str("React")) == [John()]
  {
    var p := x => RecordMatches(x, Keys(["category", "skills"]), Str("React"));
    assert p(John()) by {
      assert "skills" in ["category", "skills"];
      assert FieldOf(John(), "skills") == Arr([Str("React"), Str("TypeScript")]);
    }
    assert !p(Jane()) by {
      assert forall k :: k in ["category", "skills"] ==> k == "category" || k == "skills";
    }
    assert !p(Bob()) by {
      assert forall k :: k in ["category", "skills"] ==> k == "category" || k == "skills";
    }
    var data := [John(), Jane(), Bob()];
    assert data[1..] == [Jane(), Bob()] && data[1..][1..] == [Bob()];
  }

  /** On `category`, the Designer value keeps Jane alone and the Developer value keeps
      John and Bob. */
  lemma CategoryMatches()
    ensures Match([John(), Jane(), Bob()], Single("category"), Str("Designer")) == [Jane()]
    ensures Match([John(), Jane(), Bob()], Single("category"), Str("Developer")) == [John(), Bob()]
  {
    var data := [John(), Jane(), Bob()];
    assert data[1..] == [Jane(), Bob()] && data[1..][1..] == [Bob()];
    var designer := x => RecordMatches(x, Single("category"), Str("Designer"));
    var developer := x => RecordMatches(x, Single("category"), Str("Developer"));
    assert FieldOf(John(), "category") == Scalar(Str("Developer"));
    assert FieldOf(Jane(), "category") == Scalar(Str("Designer"));
    assert FieldOf(Bob(), "category") == Scalar(Str("Developer"));
    assert !designer(John()) && designer(Jane()) && !designer(Bob());
    assert developer(John()) && !developer(Jane()) && developer(Bob());
    assert Filter(data, designer) == [Jane()];
    assert Filter(data, developer) == [John(), Bob()];
  }

  /** Single-select on `category`: clicking "Designers" selects it alone, the click is
      reported with that chip, and the records are Jane's only. */
  lemma SingleSelectScenario()
    ensures ToggleSingle([], "design") == ["design"]
    ensures FindChip(MockChips(), "design") == Some(MockChips()[1])
    ensures FilteredData(MockChips(), [John(), Jane(), Bob()], Single("category"), false, ["design"]) == [Jane()]
  {
    var chips := MockChips();
    assert chips[1..] == [chips[1], chips[2]] && chips[1..][1..] == [chips[2]] && chips[1..][1..][1..] == [];
    assert ActiveChipObjects(chips, ["design"]) == [chips[1]];
    CategoryMatches();
  }

  /** Multi-select: selecting "Developers" and then "Designers" appends both ids in click
      order, and the active chip objects are those two chips in chip-list order. */
  lemma MultiSelectSelection()
    ensures ToggleMulti(ToggleMulti([], "dev"), "design") == ["dev", "design"]
    ensures ActiveChipObjects(MockChips(), ["dev", "design"]) == MockChips()[..2]
  {
    assert ToggleMulti([], "dev") == ["dev"];
    assert "design" !in ["dev"];
    var chips := MockChips();
    var p := (c: Chip) => c.id in ["dev", "design"];
    assert p(chips[0]) && p(chips[1]) && !p(chips[2]);
    assert chips[1..] == [chips[1], chips[2]] && chips[1..][1..] == [chips[2]];
    assert Filter(chips[1..][1..], p) == [];
    assert Filter(chips[1..], p) == [chips[1]];
    assert Filter(chips, p) == [chips[0], chips[1]];
    assert chips[..2] == [chips[0], chips[1]];
  }

  /** Multi-select on `category`: with both "Developers" and "Designers" selected no record
      is both, so the reported records are empty. */
  lemma MultiSelectAndScenario()
    ensures FilteredData(MockChips(), [John(), Jane(), Bob()], Single("category"), true, ["dev", "design"]) == []
  {
    var chips := MockChips();
    var data := [John(), Jane(), Bob()];
    var fk := Single("category");
    var objs := chips[..2];
    MultiSelectSelection();
    assert FoldMatch(data, fk, objs) == [] by {
      CategoryMatches();
      assert objs[..1] == [chips[0]] && objs[..1][..0] == [];
      assert FoldMatch(data, fk, objs[..1]) == [John(), Bob()];
      var designer := x => RecordMatches(x, fk, Str("Designer"));
      assert FieldOf(John(), "category") == Scalar(Str("Developer"));
      assert FieldOf(Bob(), "category") == Scalar(Str("Developer"));
      assert !designer(John()) && !designer(Bob());
      assert [John(), Bob()][1..] == [Bob()];
      assert Filter([John(), Bob()], designer) == [];
    }
  }

  /** Typing "dev" into the search box leaves "Developers" and hides "Designers" and
      "React". */
  lemma SearchScenario()
    ensures Visible(MockChips(), true, "dev", 0, false) == [MockChips()[0]]
  {
    var chips := MockChips();
    var term := LowerStr("dev");
    assert term == "dev";
    var p := c => LabelMatches(c, "dev");
    assert p(chips[0]) by {
      assert LowerStr("Developers")[0..] == "developers";
    }
    assert !p(chips[1]) by {
      var s := LowerStr("Designers");
      assert s == "designers";
      forall i | 0 <= i <= |s| ensures !("dev" <= s[i..]) {
        if i == 0 { assert s[2] == 's'; } else if i < |s| { assert s[i] != 'd'; }
      }
    }
    assert !p(chips[2]) by {
      var s := LowerStr("React");
      assert s == "react";
      forall i | 0 <= i <= |s| ensures !("dev" <= s[i..]) {
        if i < |s| { assert s[i] != 'd'; }
      }
    }
    assert chips[1..] == [chips[1], chips[2]] && chips[1..][1..] == [chips[2]];
    assert Filter(chips[1..][1..], p) == [];
    assert Filter(chips[1..], p) == [];
    assert Filter(chips, p) == [chips[0]];
  }

  function ManyChips(): seq<Chip>
  {
    [Chip("1", "Chip 1", Str("1"), false, false), Chip("2", "Chip 2", Str("2"), false, false),
     Chip("3", "Chip 3", Str("3"), false, false), Chip("4", "Chip 4", Str("4"), false, false)]
  }

  /** With `maxChips` 2 the first two of four chips are shown; "Show More" shows all four. */
  lemma MaxChipsScenario()
    ensures Visible(ManyChips(), false, [], 2, false) == ManyChips()[..2]
    ensures Visible(ManyChips(), false, [], 2, true) == ManyChips()
  {
  }

  /** Single-select on `category`: clicking "Developers" reports that chip with John and
      Bob. */
  lemma DeveloperClickData()
    ensures FilteredData(MockChips(), [John(), Jane(), Bob()], Single("category"), false, ["dev"]) == [John(), Bob()]
  {
    var chips := MockChips();
    assert chips[1..] == [chips[1], chips[2]] && chips[1..][1..] == [chips[2]] && chips[1..][1..][1..] == [];
    assert ActiveChipObjects(chips, ["dev"]) == [chips[0]];
    CategoryMatches();
  }

  /** Single-select on `category`: clicking "Developers" reports John and Bob, and "Clear
      All" then reports every record with no chip and leaves nothing selected. */
  method ClickThenClearAll() returns (first: Notification, cleared: Notification, finalActive: seq<string>)
    ensures first == Notification(Some(MockChips()[0]), [John(), Bob()])
    ensures cleared == Notification(None, [John(), Jane(), Bob()])
    ensures finalActive == []
  {
    MockChipsLookups();
    DeveloperClickData();
    var fc := new FilterChips(MockChips(), [John(), Jane(), Bob()], Single("category"), false, 0, false);
    fc.ToggleChip("dev");
    assert fc.activeChips == ["dev"];
    first := fc.notifications[|fc.notifications| - 1];
    fc.ClearAll();
    cleared := fc.notifications[|fc.notifications| - 1];
    finalActive := fc.activeChips;
  }

  function Rec(id: int, cat: string): Record
  {
    map["id" := Scalar(Num(id)), "cat" := Scalar(Str(cat))]
  }

  function ChipA(): Chip
  {
    Chip("a", "A", Str("A"), false, false)
  }

  function CatData(): seq<Record>
  {
    [Rec(1, "A"), Rec(2, "B"), Rec(3, "A")]
  }

  /** Chip `a` selected alone keeps records 1 and 3; with nothing selected all data is kept. */
  lemma CatScenarioData()
    ensures FilteredData([ChipA()], CatData(), Single("cat"), false, ["a"]) == [Rec(1, "A"), Rec(3, "A")]
    ensures FilteredData([ChipA()], CatData(), Single("cat"), false, []) == CatData()
  {
    var a, data := ChipA(), CatData();
    assert ActiveChipObjects([a], ["a"]) == [a];
    var isA := x => RecordMatches(x, Single("cat"), Str("A"));
    assert FieldOf(Rec(1, "A"), "cat") == Scalar(Str("A"));
    assert FieldOf(Rec(2, "B"), "cat") == Scalar(Str("B"));
    assert FieldOf(Rec(3, "A"), "cat") == Scalar(Str("A"));
    assert isA(Rec(1, "A")) && !isA(Rec(2, "B")) && isA(Rec(3, "A"));
    assert data[1..] == [Rec(2, "B"), Rec(3, "A")] && data[1..][1..] == [Rec(3, "A")];
    assert Filter(data[1..][1..], isA) == [Rec(3, "A")];
    assert Filter(data[1..], isA) == [Rec(3, "A")];
    assert Filter(data, isA) == [Rec(1, "A"), Rec(3, "A")];
  }

  /** Single-select with one chip `a` on `cat`: the first click reports records 1 and 3,
      the second click clears the selection and reports all three records. */
  method SingleSelectToggleTwice() returns (first: Notification, second: Notification, finalActive: seq<string>)
    ensures first == Notification(Some(ChipA()), [Rec(1, "A"), Rec(3, "A")])
    ensures second == Notification(Some(ChipA()), CatData())
    ensures finalActive == []
  {
    CatScenarioData();
    var a, data := ChipA(), CatData();
    var fc := new FilterChips([a], data, Single("cat"), false, 0, false);
    assert fc.activeChips == [] by {
      assert Filter([a], (c: Chip) => c.active) == [];
    }
    assert FindChip([a], "a") == Some(a);
    fc.ToggleChip("a");
    assert fc.activeChips == ["a"];
    first := fc.notifications[|fc.notifications| - 1];
    fc.ToggleChip("a");
    second := fc.notifications[|fc.notifications| - 1];
    finalActive := fc.activeChips;
  }

  /** With chips A and B both selected in multi-select, the reported records are those
      matching A, narrowed to those matching B. */
  lemma TwoChipReport(data: seq<Record>, fk: FilterKey, ca: Chip, cb: Chip)
    ensures FilteredData([ca, cb], data, fk, true, [ca.id, cb.id])
              == Match(Match(data, fk, ca.value), fk, cb.value)
  {
    var chips := [ca, cb];
    FilterKeepsAll(chips, (c: Chip) => c.id in [ca.id, cb.id]);
    assert ActiveChipObjects(chips, [ca.id, cb.id]) == chips;
    assert chips[..1] == [ca] && chips[..1][..0] == [];
    assert FoldMatch(data, fk, [ca]) == Match(data, fk, ca.value);
    assert FoldMatch(data, fk, chips) == Match(FoldMatch(data, fk, [ca]), fk, cb.value);
  }

  /** Multi-select with two chips A and B: clicking A and then B reports B with the
      records that match A and then B, and "Clear All" then reports all the data with no
      chip and leaves nothing selected. */
  method MultiSelectThenClearAll(data: seq<Record>, fk: FilterKey, ca: Chip, cb: Chip)
    returns (second: Notification, cleared: Notification, finalActive: seq<string>)
    requires !ca.active && !cb.active && ca.id != cb.id
    ensures second == Notification(Some(cb), Match(Match(data, fk, ca.value), fk, cb.value))
    ensures cleared == Notification(None, data)
    ensures finalActive == []
  {
    var chips := [ca, cb];
    assert InitialActive(chips) == [] by {
      assert chips[1..] == [cb];
      assert Filter(chips, (c: Chip) => c.active) == [];
    }
    var fc := new FilterChips(chips, data, fk, true, 0, false);
    fc.ToggleChip(ca.id);
    assert fc.activeChips == [ca.id];
    fc.ToggleChip(cb.id);
    assert fc.activeChips == [ca.id, cb.id];
    assert FindChip(chips, cb.id) == Some(cb) by {
      assert chips[1..] == [cb];
    }
    TwoChipReport(data, fk, ca, cb);
    second := fc.notifications[|fc.notifications| - 1];
    fc.ClearAll();
    cleared := fc.notifications[|fc.notifications| - 1];
    finalActive := fc.activeChips;
  }

  /** A selected id with no chip left is ignored by the filtering: only B's chip object
      remains, so the report is B's match alone. */
  lemma StaleIdIgnored(data: seq<Record>, fk: FilterKey, a: string, cb: Chip)
    requires a != cb.id
    ensures FilteredData([cb], data, fk, true, [a, cb.id]) == Match(data, fk, cb.value)
  {
    assert ActiveChipObjects([cb], [a, cb.id]) == [cb];
    assert [cb][..0] == [];
    assert FoldMatch(data, fk, [cb]) == Match(FoldMatch(data, fk, []), fk, cb.value);
  }

  /** Multi-select with chips A and B: clicking A and then re-rendering with B alone keeps
      A's id selected, although no chip carries it any more. */
  method DropSelectedChip(data: seq<Record>, fk: FilterKey, ca: Chip, cb: Chip) returns (fc: FilterChips)
    requires !ca.active && !cb.active && ca.id != cb.id
    ensures fresh(fc)
    ensures fc.chips == [cb] && fc.data == data && fc.filterKey == fk && fc.multiSelect
    ensures fc.IsActive(ca.id) && fc.activeChips == [ca.id]
  {
    var chips := [ca, cb];
    assert InitialActive(chips) == [] by {
      assert chips[1..] == [cb];
      assert Filter(chips, (c: Chip) => c.active) == [];
    }
    fc := new FilterChips(chips, data, fk, true, 0, false);
    fc.ToggleChip(ca.id);
    fc.Rerender([cb], data, fk, true, 0, false);
  }

  /** After A's chip is gone, a multi-select click on B filters by B alone: the stale id
      matches no chip object, yet stays selected. */
  method ClickAfterChipRemoved(data: seq<Record>, fk: FilterKey, ca: Chip, cb: Chip)
    returns (stillActive: bool, report: Notification)
    requires !ca.active && !cb.active && ca.id != cb.id
    ensures stillActive
    ensures report == Notification(Some(cb), Match(data, fk, cb.value))
  {
    var fc := DropSelectedChip(data, fk, ca, cb);
    fc.ToggleChip(cb.id);
    stillActive := fc.IsActive(ca.id);
    assert fc.activeChips == [ca.id, cb.id];
    assert FindChip([cb], cb.id) == Some(cb);
    StaleIdIgnored(data, fk, ca.id, cb);
    report := fc.notifications[|fc.notifications| - 1];
  }
}
