# Filter chips: selection and filtering engine

This project models the logic core of the `FilterChips` React component. The component shows a row of
selectable chips. Each chip carries a value. Selecting chips filters a list of records by the
chips' values and reports the result through the `onChipClick` callback.

The model covers:

- `defaultFilterFunction`, the record matcher. A record passes a chip when the field named by the
  filter key holds the chip's value, or, if the field is an array, contains it. With a list of
  keys, a record passes when any key matches (`Matcher`).
- the initial state of the component. The selection starts as the ids of the chips flagged
  `active`, in chip order (`Chips`).
- the selection policy of `toggleChip` (`Selection`):
  - multi-select removes a selected id or appends an unselected one;
  - single-select empties the selection or makes it the clicked id alone.
- the data filtering of `toggleChip` (`Controller`):
  - the active chip objects are taken in chip-list order;
  - in multi-select the records are narrowed chip by chip (a logical AND);
  - in single-select the last active chip's value is used;
  - with no active chip the data is left as is.
- the `filteredChips` derivation: a case-insensitive label search followed by truncation to
  `maxChips` unless `showAll` is set (`View`).
- the component state as a class, `Controller.FilterChips`. Its methods are `toggleChip`,
  `clearAll`, `handleSearchChange` and `toggleShowAll`. `isActive` is a predicate, and the
  methods' contracts say how each one changes it. Every `onChipClick` call is appended to a
  `notifications` log. The props are fields as well. `Rerender` replaces them and keeps the
  state, as React does when the component receives new props.
- concrete scenarios (`Scenarios`). Some replay cases of the component's test file
  src/__tests__/FilterChips.test.tsx on its fixtures. Others exercise the component on small
  data of their own or on arbitrary chips and records.

`Seqs` holds the generic order-preserving `Filter` (the shape of every `Array.prototype.filter`
call in the core) and the subsequence relation, with the lemmas the other modules use.

## Model

| member | source | states |
|---|---|---|
| Seqs.Filter | src/FilterChips.tsx:18 | the filtered list is no longer than the input and is an order-preserving subsequence of it |
| Seqs.FilterCount | src/FilterChips.tsx:18 | each element passing the predicate keeps all its copies; a failing element keeps none |
| Seqs.FilterMembers | src/FilterChips.tsx:18 | an element is kept exactly when it is in the input and passes the predicate |
| Seqs.EmptyIsSubsequence | src/FilterChips.tsx:16 | the empty list is a subsequence of every list |
| Seqs.PrefixOfSubsequence | src/FilterChips.tsx:78 | a prefix of a subsequence is still a subsequence |
| Seqs.FilterAppend | src/FilterChips.tsx:90-91 | filtering distributes over concatenation |
| Seqs.FilterKeepsAll | src/FilterChips.tsx:90 | a filter every element passes returns the list unchanged |
| Seqs.FilterExt | src/FilterChips.tsx:18 | filters that agree on the list's elements give the same result |
| Seqs.FilterCompose | src/FilterChips.tsx:105-108 | filtering by p and then by q equals one filter by p-and-q |
| Matcher.FieldOf | src/FilterChips.tsx:21 | `item[key]`: the record's value under the key, or `undefined` when the key is absent; used by RecordMatches, whose meaning MatchSpec states |
| Matcher.FieldMatches | src/FilterChips.tsx:22-25 | an array field matches when it contains the value, a scalar when it equals it, an absent field never; used by RecordMatches, whose meaning MatchSpec states |
| Matcher.RecordMatches | src/FilterChips.tsx:19-33 | one key: that field matches; a key list: some listed field matches; MatchSpec, KeyListOfOne and KeyListUnion state what Match keeps in terms of it |
| Matcher.Match | src/FilterChips.tsx:15-35 | empty data gives empty results; the result is never longer than the data |
| Matcher.MatchSpec | src/FilterChips.tsx:15-35 | the result is a subsequence of the data; a record is in it iff it is in the data and its field (or some listed field) equals or contains the value; multiplicities are kept |
| Matcher.MatchIdempotent | src/FilterChips.tsx:15-35 | filtering a result again by the same value changes nothing |
| Matcher.MatchBoth | src/FilterChips.tsx:105-108 | filtering by a and then by b keeps the records matching both, and the order of the two filters does not matter |
| Matcher.KeyListOfOne | src/FilterChips.tsx:19-33 | a one-key list behaves like the single key; an empty key list matches no record |
| Matcher.KeyListUnion | src/FilterChips.tsx:20-26 | a record matches a concatenated key list iff it matches either part |
| Chips.Ids | src/FilterChips.tsx:63 | the id list has one entry per chip, each the id of the chip at that position |
| Chips.InitialActive | src/FilterChips.tsx:62-66 | the initial selection is no longer than the chip list |
| Chips.InitialActiveSpec | src/FilterChips.tsx:63 | an id starts selected iff some chip with that id is flagged active |
| Chips.FindChip | src/FilterChips.tsx:117 | a found chip is one of the chips and has the requested id |
| Chips.FindChipSpec | src/FilterChips.tsx:117 | the look-up fails iff no chip has the id; otherwise it returns the first chip with it |
| Selection.ToggleMulti | src/FilterChips.tsx:89-91 | the id is selected afterwards iff it was not selected before |
| Selection.ToggleMultiSpec | src/FilterChips.tsx:89-91 | deselecting keeps the order and every other id's copies; selecting appends the id at the end of the unchanged list |
| Selection.ToggleSingle | src/FilterChips.tsx:93-95 | the selection has at most one id, which is the clicked one; it is empty iff the id was selected |
| Selection.NextActive | src/FilterChips.tsx:88-96 | in single-select the new selection has at most one id |
| Selection.MultiToggleFlipsOnlyId | src/FilterChips.tsx:89-91 | a multi-select toggle flips the clicked id's membership and no other id's |
| Selection.ToggleMultiTwice | src/FilterChips.tsx:89-91 | selecting and then deselecting an unselected id restores the selection exactly |
| Selection.ToggleSingleTwice | src/FilterChips.tsx:93-95 | in single-select, two clicks on one chip restore a selection that was empty or that chip alone |
| View.Lower | src/FilterChips.tsx:73 | `toLowerCase` on one character, ASCII letters only; LowerStr and SearchIgnoresCase use it |
| View.LowerStr | src/FilterChips.tsx:73 | lower-casing keeps the length |
| View.Includes | src/FilterChips.tsx:73 | `includes`: the term occurs at some position of the label; LabelMatches uses it |
| View.LabelMatches | src/FilterChips.tsx:73 | the lower-cased label includes the lower-cased term; SearchFiltered's and VisibleChipsMatch's ensures are stated with it |
| View.Searching | src/FilterChips.tsx:71 | `searchable && state.searchTerm`: searching is on and the term is not empty; SearchFiltered's ensures split on it |
| View.SearchFiltered | src/FilterChips.tsx:69-75 | searching keeps, in order, every chip whose lower-cased label contains the lower-cased term, with its multiplicity; without a search (not searchable, or empty term) all chips are kept |
| Seqs.SelfIsSubsequence | src/FilterChips.tsx:69 | a list is a subsequence of itself |
| View.Visible | src/FilterChips.tsx:68-82 | the shown chips are a prefix of the search result and a subsequence of the chips; there are exactly maxChips of them when maxChips is set, showAll is off and more chips were found, otherwise all found chips |
| View.VisibleChipsMatch | src/FilterChips.tsx:68-82 | every shown chip is a supplied chip, and while searching its label contains the term |
| View.ShowAllRestores | src/FilterChips.tsx:77-79 | with showAll the whole search result is shown, and the truncated list is a prefix of it |
| View.SearchIgnoresCase | src/FilterChips.tsx:73 | terms that lower-case alike show the same chips |
| Controller.ActiveChipObjects | src/FilterChips.tsx:99 | there are no more active chip objects than chips |
| Controller.ActiveChipObjectsSpec | src/FilterChips.tsx:99 | the active chip objects are, in chip-list order, exactly the chips whose id is selected, each with all its copies |
| Controller.FoldMatch | src/FilterChips.tsx:105-108 | the left `reduce` of the matcher over the chips, starting from the data; ReduceByChips's ensures states the loop equals it and FoldMatchIsAnd what it keeps |
| Controller.FoldMatchIsAnd | src/FilterChips.tsx:105-108 | the chip-by-chip reduce keeps exactly the records that match every chip, in data order |
| Controller.FoldMatchOrderIrrelevant | src/FilterChips.tsx:105-108 | chip lists with the same members give the same reduce result |
| Controller.FilteredData | src/FilterChips.tsx:99-114 | with no chip selected the data is reported unfiltered |
| Controller.FilteredDataSpec | src/FilterChips.tsx:99-114 | the reported records are a subsequence of the data; in multi-select a record is reported iff it is in the data and matches every selected chip |
| Controller.SingleSelectFilteredData | src/FilterChips.tsx:93-113 | in single-select the records are filtered by the last active chip object, and every active chip has the clicked id |
| Controller.ReduceByChips | src/FilterChips.tsx:105-108 | the loop's result is the left fold of the matcher over the chips, which FoldMatchIsAnd shows is the records matching every chip |
| Controller.FilterChips.IsActive | src/FilterChips.tsx:137-139 | membership of the id in the selection; the constructor's, ToggleChip's and ClearAll's ensures state how each changes it |
| Controller.FilterChips.constructor | src/FilterChips.tsx:62-66 | the props are stored; isActive holds for an id iff some chip with that id is flagged active; the search term is empty, showAll is off and nothing has been reported |
| Controller.FilterChips.Rerender | src/FilterChips.tsx:37-66 | new props replace the old ones, while the selection, the search term, showAll and the reports so far are kept |
| Controller.FilterChips.VisibleChips | src/FilterChips.tsx:68-82 | the shown chips are a subsequence of the chips and, while searching, match the term |
| Controller.FilterChips.ToggleChip | src/FilterChips.tsx:84-127 | the selection becomes the policy's next selection; isActive flips for the clicked id; in multi-select it keeps its value for every other id, and in single-select it holds for no other id; one report of the clicked chip with the filtered records is logged iff the id names a chip; only the selection and the log may change |
| Controller.FilterChips.ClearAll | src/FilterChips.tsx:129-135 | the selection is emptied, so isActive holds for no id, and a report with no chip and the unfiltered data is logged; only the selection and the log may change |
| Controller.FilterChips.SetSearchTerm | src/FilterChips.tsx:141-146 | the search term becomes the input's text; nothing else may change |
| Controller.FilterChips.ToggleShowAll | src/FilterChips.tsx:148-153 | showAll is negated; nothing else may change |
| Scenarios.MockChipsLookups | src/__tests__/FilterChips.test.tsx:13-17 | no test chip starts active, and "dev" and "design" resolve to their chips |
| Scenarios.KeyListScenario | src/__tests__/FilterChips.test.tsx:274-294 | with the keys category and skills, React keeps John alone, through his skills array |
| Scenarios.CategoryMatches | src/__tests__/FilterChips.test.tsx:41-83 | on category, Developer keeps John and Bob and Designer keeps Jane |
| Scenarios.SingleSelectScenario | src/__tests__/FilterChips.test.tsx:63-83 | clicking Designers in single-select selects it alone and reports Jane's record only |
| Scenarios.MultiSelectSelection | src/FilterChips.tsx:89-99 | selecting dev then design gives the selection [dev, design], and the active chip objects are the first two chips |
| Scenarios.MultiSelectAndScenario | src/FilterChips.tsx:103-108 | with Developers and Designers both selected, no record is reported |
| Scenarios.SearchScenario | src/__tests__/FilterChips.test.tsx:162-178 | searching "dev" shows Developers only |
| Scenarios.MaxChipsScenario | src/__tests__/FilterChips.test.tsx:180-202 | with maxChips 2, two of four chips are shown, and all four with showAll |
| Scenarios.CatScenarioData | src/FilterChips.tsx:99-114 | chip a selected alone keeps records 1 and 3 of three; with nothing selected all records are kept |
| Scenarios.SingleSelectToggleTwice | src/FilterChips.tsx:92-125 | clicking chip a twice in single-select first reports records 1 and 3, then all records, and ends with nothing selected |
| Scenarios.TwoChipReport | src/FilterChips.tsx:99-108 | with chips A and B both selected in multi-select, the report is the records matching A narrowed to those matching B |
| Scenarios.MultiSelectThenClearAll | src/FilterChips.tsx:84-135 | in multi-select, clicking A then B reports B with the records matching both; Clear All then reports all data with no chip and leaves nothing selected |
| Scenarios.DeveloperClickData | src/__tests__/FilterChips.test.tsx:41-61 | clicking Developers in single-select on category reports John and Bob |
| Scenarios.ClickThenClearAll | src/__tests__/FilterChips.test.tsx:124-145 | in single-select, clicking Developers reports John and Bob; Clear All then reports all three records with no chip and leaves nothing selected |
| Scenarios.StaleIdIgnored | src/FilterChips.tsx:99-108 | a selected id that no chip carries is ignored by the filtering |
| Scenarios.DropSelectedChip | src/FilterChips.tsx:62-66 | after clicking A, a re-render with chip B alone keeps A's id selected |
| Scenarios.ClickAfterChipRemoved | src/FilterChips.tsx:84-127 | after A's chip is dropped, a multi-select click on B reports the records matching B alone, and A's id is still selected |

## Notes on the code's behaviour

- `toggleChip` applies the selection policy without looking the id up
  (src/FilterChips.tsx:88-96). An id that names no chip is therefore still added to, or removed
  from, the selection. Only the callback is skipped for it.
- `onChipClick` is called only when the clicked id names a chip (src/FilterChips.tsx:117-120).
- Single-select filters by the last active chip object, taken in chip-list order
  (src/FilterChips.tsx:99, 111). This is the clicked chip, because the new selection holds at
  most that one id. If several chips share the id, the filter uses the last of them, while the
  callback reports the first (`FindChip`).
- The selection is initialised once, at mount (src/FilterChips.tsx:62-66). `filteredChips`
  (src/FilterChips.tsx:82) and `toggleChip` (src/FilterChips.tsx:127) pick up new `chips`
  through their dependency lists; `toggleChip` and `clearAll` (src/FilterChips.tsx:127, 135)
  pick up new `data`. A
  selected id whose chip a later render drops therefore stays selected, and the filtering
  ignores it (`Rerender`, `ClickAfterChipRemoved`).

## Left out

- Rendering: the JSX, the `Chip` sub-component, the "Clear All", "Show More/Less", search-box,
  no-results and loading markup, class names, styles and colours. These are presentation only.
- The `disabled` guard: it lives only in the rendering. The `onClick` handler short-circuits on
  `!chip.disabled` (src/FilterChips.tsx:200), and the button carries a `disabled` attribute
  (src/FilterChips.tsx:275). `ToggleChip` therefore does not check `Chip.disabled`. The flag is
  kept in the `Chip` datatype.
- The React context `FilterChipsContext` and its `Provider` (src/FilterChips.tsx:5, 173), and
  `useFilterChipsContext` with its throw (src/FilterChips.tsx:7-13); hooks, memoisation and
  re-render timing. The state updates are modelled as sequential method calls.
- `dist/` and `examples/`: built output and usage samples, with no logic of their own.
- Chip values other than strings, numbers, booleans and `null`: objects, functions, `undefined`
  and nested arrays. `Atom` covers these four, and record fields are atoms or arrays of atoms.
- JavaScript number semantics: numbers are `int`. `NaN`, `-0` and SameValueZero in `includes`
  are not modelled.
- Case folding beyond ASCII: `Lower` lower-cases only `A`-`Z`, not full Unicode `toLowerCase`.
- Matcher.Match: a `null` or missing `data` array is not modelled. `data` is always a sequence;
  the empty sequence takes the `data.length === 0` branch.
- Matcher.FieldOf: data elements are objects (`Record`). An element that is `null` or
  `undefined`, where `item[key]` throws a TypeError (src/FilterChips.tsx:21, 28) so the click
  fails inside `toggleChip` and nothing is reported, is not modelled; nor is a primitive
  element, whose own properties `item[key]` would read.
- View.Visible: `maxChips` is a `nat`, and 0 stands for "not set" (JavaScript treats both as
  falsy). A negative `maxChips` (`slice(0, -n)`) is not modelled.
- Controller.FilterChips.ToggleChip: `onChipClick` is a call into caller code. It is modelled as
  an append to the `notifications` log, and Clear All's `{}` chip is modelled as `None`.
- Records compare by value. The component passes the same record objects through, so object
  identity is not modelled.
