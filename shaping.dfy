/**
  The page-data shaping helpers of gather_utils.py: `extract_table_rows`,
  `extract_svg_group_ids` and `extract_build_items`.

  HTML parsing is not modelled: each helper receives the elements its
  BeautifulSoup queries select, already reduced to the strings it reads.
  `None` stands for "the container element was not found".
 */
module Shaping {
  import opened Common

  // ---------------------------------------------------------------------
  // extract_table_rows
  // ---------------------------------------------------------------------

  /** One output row: the caller's `name` and the first five cells. */
  datatype RowDict = RowDict(name: string, lvl: string, wood: string, clay: string, iron: string, crop: string)

  /** `row[k] if len(row) > k else ""` */
  function Cell(cells: seq<string>, k: nat): string
  {
    if k < |cells| then cells[k] else ""
  }

  /** The dict built from the cell texts of one `<tr>`; only the first five cells are read. */
  function RowOf(name: string, cells: seq<string>): (d: RowDict)
    ensures d == RowOf(name, if |cells| <= 5 then cells else cells[..5])
  {
    RowDict(name, Cell(cells, 0), Cell(cells, 1), Cell(cells, 2), Cell(cells, 3), Cell(cells, 4))
  }

  /** `body_rows[1:-1]`: every `<tr>` but the first and the last. */
  function Inner(trs: seq<seq<string>>): (r: seq<seq<string>>)
    ensures |trs| <= 2 ==> r == []
    ensures |trs| > 2 ==> |r| == |trs| - 2 && forall i :: 0 <= i < |r| ==> r[i] == trs[i + 1]
  {
    if |trs| <= 2 then [] else trs[1..|trs| - 1]
  }

  /** The rows that have at least one `<td>`, in order. */
  function WithCells(trs: seq<seq<string>>): (r: seq<seq<string>>)
    ensures |r| <= |trs|
    ensures forall row :: row in r ==> row in trs && row != []
    ensures forall row :: row in trs && row != [] ==> row in r
  {
    if trs == [] then []
    else WithCells(trs[..|trs| - 1]) + (if trs[|trs| - 1] == [] then [] else [trs[|trs| - 1]])
  }

  /** What `extract_table_rows(html, name)` returns, for the `<td>` texts of each `<tr>` of `#data`. */
  function TableRows(table: Option<seq<seq<string>>>, name: string): (rows: seq<RowDict>)
  {
    match table
    case None => []
    case Some(trs) =>
      var kept := WithCells(Inner(trs));
      seq(|kept|, i requires 0 <= i < |kept| => RowOf(name, kept[i]))
  }

  /** The append loop of `extract_table_rows`. */
  method ExtractTableRows(table: Option<seq<seq<string>>>, name: string) returns (extracted: seq<RowDict>)
    ensures extracted == TableRows(table, name)
  {
    if table.None? {
      return [];
    }
    var trs := table.value;
    if |trs| == 0 {
      return [];
    }
    var body := Inner(trs);
    extracted := [];
    for i := 0 to |body|
      invariant var kept := WithCells(body[..i]);
                |extracted| == |kept| && forall k :: 0 <= k < |kept| ==> extracted[k] == RowOf(name, kept[k])
    {
      assert body[..i + 1][..i] == body[..i];
      var tds := body[i];
      if tds == [] {
        continue;
      }
      extracted := extracted + [RowOf(name, tds)];
    }
    assert body[..|body|] == body;
  }

  /** The header row and the totals row never reach the output. */
  lemma TableRowsIgnoreEnds(first: seq<string>, middle: seq<seq<string>>, last: seq<string>,
                            first': seq<string>, last': seq<string>, name: string)
    ensures TableRows(Some([first] + middle + [last]), name) == TableRows(Some([first'] + middle + [last']), name)
  {
    assert Inner([first] + middle + [last]) == middle;
    assert Inner([first'] + middle + [last']) == middle;
  }

  /**
    Each output row comes from an inner `<tr>` with cells and carries its
    first five cell texts, `""` where the row is shorter, and the caller's name.
   */
  lemma TableRowsFields(table: Option<seq<seq<string>>>, name: string, i: nat)
    requires i < |TableRows(table, name)|
    ensures table.Some?
    ensures var row := TableRows(table, name)[i];
            exists cells :: && cells in Inner(table.value) && cells != []
                            && row.name == name && row.lvl == cells[0]
                            && row.wood == Cell(cells, 1) && row.clay == Cell(cells, 2)
                            && row.iron == Cell(cells, 3) && row.crop == Cell(cells, 4)
  {
    var kept := WithCells(Inner(table.value));
    assert kept[i] in kept;
  }

  /** A table with fewer than three rows has no data rows. */
  lemma ShortTableIsEmpty(trs: seq<seq<string>>, name: string)
    requires |trs| <= 2
    ensures TableRows(Some(trs), name) == []
  {
  }

  // ---------------------------------------------------------------------
  // extract_svg_group_ids
  // ---------------------------------------------------------------------

  /** A `<g id=...>` of the `centerCanvas` SVG: its id and the stripped texts of its `<text>` elements. */
  datatype Group = Group(id: string, texts: seq<string>)

  /** One result dict `{"id": gid, "flight": int(...)}`. */
  datatype SvgGroup = SvgGroup(id: string, flight: nat)

  /** `^\d{7}$` on a stripped id: exactly seven digits. */
  predicate SevenDigits(s: string)
  {
    |s| == 7 && AllDigits(s)
  }

  /** `\b(\d{4})\b` matches at position `p`: four digits with no word character on either side. */
  predicate FourTokenAt(s: string, p: int)
  {
    && 0 <= p && p + 4 <= |s| && AllDigits(s[p..p + 4])
    && (p == 0 || !IsWordChar(s[p - 1]))
    && (p + 4 == |s| || !IsWordChar(s[p + 4]))
  }

  /** The leftmost position from `from` on where `\b(\d{4})\b` matches. */
  function FirstFourToken(s: string, from: nat): (r: Option<nat>)
    ensures r.Some? ==> from <= r.value && FourTokenAt(s, r.value)
                        && forall q :: from <= q < r.value ==> !FourTokenAt(s, q)
    ensures r.None? ==> forall q :: from <= q ==> !FourTokenAt(s, q)
    decreases |s| - from
  {
    if from + 4 > |s| then None
    else if FourTokenAt(s, from) then Some(from)
    else FirstFourToken(s, from + 1)
  }

  /** The dict for one group, or None when a filter skips it. */
  function GroupResult(g: Group): (r: Option<SvgGroup>)
    ensures r.Some? ==> SevenDigits(r.value.id) && r.value.id == Strip(g.id) && r.value.flight <= 9999
  {
    var gid := Strip(g.id);
    if !SevenDigits(gid) || g.texts == [] then None
    else
      var last := g.texts[|g.texts| - 1];
      match FirstFourToken(last, 0)
      case None => None
      case Some(p) =>
        var token := last[p..p + 4];
        DigitsBelow(token);
        Some(SvgGroup(gid, DigitsValue(token)))
  }

  /**
    A group is kept exactly when it passes the three filters in turn: its
    stripped id is seven digits, it has a `<text>`, and its last text
    holds a four-digit token; the flight is then the value of the
    leftmost such token.
   */
  lemma GroupFilters(g: Group)
    ensures GroupResult(g).Some? <==>
              SevenDigits(Strip(g.id)) && g.texts != [] && FirstFourToken(g.texts[|g.texts| - 1], 0).Some?
    ensures GroupResult(g).Some? ==>
              var last := g.texts[|g.texts| - 1];
              var p := FirstFourToken(last, 0).value;
              GroupResult(g).value == SvgGroup(Strip(g.id), DigitsValue(last[p..p + 4]))
  {
    var gid := Strip(g.id);
    if SevenDigits(gid) && g.texts != [] {
      var last := g.texts[|g.texts| - 1];
      match FirstFourToken(last, 0)
      case None =>
        assert GroupResult(g) == None;
      case Some(p) =>
        assert GroupResult(g) == Some(SvgGroup(gid, DigitsValue(last[p..p + 4])));
    } else {
      assert GroupResult(g) == None;
    }
  }

  /** `10 ** n` */
  function Pow10(n: nat): (p: nat)
    ensures p >= 1
  {
    if n == 0 then 1 else 10 * Pow10(n - 1)
  }

  /** `n` digits are worth less than `10 ** n`. */
  lemma {:induction false} DigitsValueBelow(s: string)
    requires AllDigits(s)
    ensures DigitsValue(s) < Pow10(|s|)
  {
    if s != [] {
      DigitsValueBelow(s[..|s| - 1]);
    }
  }

  /** Four digits are worth at most 9999. */
  lemma DigitsBelow(s: string)
    requires |s| == 4 && AllDigits(s)
    ensures DigitsValue(s) <= 9999
  {
    DigitsValueBelow(s);
    assert Pow10(4) == 10000;
  }

  /** What `extract_svg_group_ids(html)` returns, for the groups of `#centerCanvas` in document order. */
  function SvgGroups(canvas: Option<seq<Group>>): seq<SvgGroup>
  {
    match canvas
    case None => []
    case Some(gs) => Results(gs)
  }

  function Results(gs: seq<Group>): (r: seq<SvgGroup>)
    ensures |r| <= |gs|
  {
    if gs == [] then []
    else Results(gs[..|gs| - 1])
         + (match GroupResult(gs[|gs| - 1]) case None => [] case Some(x) => [x])
  }

  /** The append loop of `extract_svg_group_ids`. */
  method ExtractSvgGroupIds(canvas: Option<seq<Group>>) returns (results: seq<SvgGroup>)
    ensures results == SvgGroups(canvas)
  {
    if canvas.None? {
      return [];
    }
    var gs := canvas.value;
    results := [];
    for i := 0 to |gs|
      invariant results == Results(gs[..i])
    {
      assert gs[..i + 1][..i] == gs[..i];
      var r := GroupResult(gs[i]);
      assert Results(gs[..i + 1]) == Results(gs[..i]) + (match r case None => [] case Some(x) => [x]);
      if r.Some? {
        results := results + [r.value];
      }
    }
    assert gs[..|gs|] == gs;
  }

  /** Every result has a seven-digit id and a flight number of at most four digits. */
  lemma {:induction false} SvgGroupsWellFormed(gs: seq<Group>)
    ensures forall r :: r in Results(gs) ==> SevenDigits(r.id) && r.flight <= 9999
  {
    if gs != [] {
      SvgGroupsWellFormed(gs[..|gs| - 1]);
    }
  }

  /** Every group that passes the filters contributes its dict to the results. */
  lemma {:induction false} ResultsHoldKept(gs: seq<Group>, i: nat)
    requires i < |gs| && GroupResult(gs[i]).Some?
    ensures GroupResult(gs[i]).value in Results(gs)
    decreases |gs|
  {
    var init := gs[..|gs| - 1];
    if i < |gs| - 1 {
      assert gs[i] == init[i];
      ResultsHoldKept(init, i);
    }
  }

  /** Every dict in the results comes from a group that passes the filters: group `i`. */
  lemma {:induction false} ResultsFromKept(gs: seq<Group>, r: SvgGroup) returns (i: nat)
    requires r in Results(gs)
    ensures i < |gs| && GroupResult(gs[i]) == Some(r)
    decreases |gs|
  {
    var init := gs[..|gs| - 1];
    if r in Results(init) {
      i := ResultsFromKept(init, r);
      assert gs[i] == init[i];
    } else {
      i := |gs| - 1;
    }
  }

  /** The id " 1234567\n" strips to its seven digits. */
  lemma StripPaddedId()
    ensures Strip(" 1234567\n") == "1234567" && SevenDigits("1234567")
  {
    assert StripLeft("1234567\n") == "1234567\n";
    assert " 1234567\n"[1..] == "1234567\n";
    assert StripRight("1234567") == "1234567";
    assert "1234567\n"[..7] == "1234567";
  }

  /** The leftmost four-digit token of "DXB 2215 LHR" is "2215", at position 4. */
  lemma FlightToken()
    ensures FirstFourToken("DXB 2215 LHR", 0) == Some(4)
    ensures "DXB 2215 LHR"[4..8] == "2215" && DigitsValue("2215") == 2215
  {
    var last := "DXB 2215 LHR";
    assert !FourTokenAt(last, 0) && !FourTokenAt(last, 1) && !FourTokenAt(last, 2) && !FourTokenAt(last, 3);
    assert last[4..8] == "2215";
    assert FourTokenAt(last, 4);
    assert "2215"[..3] == "221";
    assert "221"[..2] == "22";
    assert "22"[..1] == "2";
    assert "2"[..0] == "";
  }

  /** A group passes when its stripped id is seven digits and its last text holds a four-digit token. */
  lemma GroupKept()
    ensures GroupResult(Group(" 1234567\n", ["EK 0384", "DXB 2215 LHR"])) == Some(SvgGroup("1234567", 2215))
  {
    StripPaddedId();
    FlightToken();
  }

  /** Five digits in a row are not a four-digit token. */
  lemma FiveDigitsAreNoToken()
    ensures FirstFourToken("12345", 0) == None
  {
    assert !FourTokenAt("12345", 0);
    assert !FourTokenAt("12345", 1);
  }

  // ---------------------------------------------------------------------
  // extract_build_items
  // ---------------------------------------------------------------------

  /** A `.build_list__item`: its `id` attribute (`""` when absent) and its text block. */
  datatype Item = Item(rawId: string, block: string)

  /** One result dict `{"gid", "name", "column", "raw_id"}`. */
  datatype BuildItem = BuildItem(gid: nat, name: string, column: nat, rawId: string)

  /** `next((ln for ln in lines if ln), "")` */
  function FirstNonEmpty(lines: seq<string>): (s: string)
    ensures s == "" || s in lines
    ensures s == "" ==> forall l :: l in lines ==> l == ""
  {
    if lines == [] then ""
    else if lines[0] != "" then lines[0]
    else
      assert forall l :: l in lines ==> l == lines[0] || l in lines[1..];
      FirstNonEmpty(lines[1..])
  }

  /** A non-empty result is line `i`, and every line before it is empty. */
  lemma {:induction false} FirstNonEmptyIsFirst(lines: seq<string>) returns (i: nat)
    requires FirstNonEmpty(lines) != ""
    ensures i < |lines| && lines[i] == FirstNonEmpty(lines)
    ensures forall j :: 0 <= j < i ==> lines[j] == ""
  {
    if lines[0] != "" {
      i := 0;
    } else {
      var k := FirstNonEmptyIsFirst(lines[1..]);
      i := k + 1;
      forall j | 0 <= j < i
        ensures lines[j] == ""
      {
        if j > 0 {
          assert lines[j] == lines[1..][j - 1];
        }
      }
    }
  }

  /** The item's name: the first non-empty line of its text block. */
  function ItemName(block: string): string
  {
    FirstNonEmpty(SplitOn(block, '\n'))
  }

  /** The longest run of digits starting at `p`. */
  function DigitRun(s: string, p: nat): (r: string)
    requires p <= |s|
    ensures AllDigits(r) && |r| <= |s| - p && r == s[p..p + |r|]
    ensures p + |r| == |s| || !IsDigit(s[p + |r|])
    decreases |s| - p
  {
    if p < |s| && IsDigit(s[p]) then [s[p]] + DigitRun(s, p + 1) else []
  }

  /** `gid-(\d+)` matches at position `p`. */
  predicate GidAt(s: string, p: int)
  {
    0 <= p && p + 5 <= |s| && s[p..p + 4] == "gid-" && IsDigit(s[p + 4])
  }

  /** `re.search(r"gid-(\d+)", s)`: the leftmost match position from `from` on. */
  function FirstGid(s: string, from: nat): (r: Option<nat>)
    ensures r.Some? ==> from <= r.value && GidAt(s, r.value) && forall q :: from <= q < r.value ==> !GidAt(s, q)
    ensures r.None? ==> forall q :: from <= q ==> !GidAt(s, q)
    decreases |s| - from
  {
    if from + 5 > |s| then None
    else if GidAt(s, from) then Some(from)
    else FirstGid(s, from + 1)
  }

  /** `int(m.group(1))` for the leftmost match, None when there is none. */
  function GidOf(rawId: string): Option<nat>
  {
    match FirstGid(rawId, 0)
    case None => None
    case Some(p) => Some(DigitsValue(DigitRun(rawId, p + 4)))
  }

  /** The result dict for one item of column `column`, or None when its id does not match. */
  function ItemResult(item: Item, column: nat): (r: Option<BuildItem>)
    ensures r.Some? ==> r.value.column == column && r.value.rawId == item.rawId && GidOf(item.rawId) == Some(r.value.gid)
  {
    match GidOf(item.rawId)
    case None => None
    case Some(g) => Some(BuildItem(g, ItemName(item.block), column, item.rawId))
  }

  /** The results of one column, in document order. */
  function ColumnResults(items: seq<Item>, column: nat): (r: seq<BuildItem>)
    ensures forall x :: x in r ==> x.column == column && GidOf(x.rawId) == Some(x.gid)
  {
    if items == [] then []
    else ColumnResults(items[..|items| - 1], column)
         + (match ItemResult(items[|items| - 1], column) case None => [] case Some(x) => [x])
  }

  /** The results of all columns before sorting, in document order. */
  function Collected(columns: seq<seq<Item>>): (r: seq<BuildItem>)
    ensures forall x :: x in r ==> x.column < |columns| && GidOf(x.rawId) == Some(x.gid)
  {
    if columns == [] then []
    else Collected(columns[..|columns| - 1]) + ColumnResults(columns[|columns| - 1], |columns| - 1)
  }

  // Ordering by the key (column, gid, name)

  /** Python's `a <= b` on strings: code-point lexicographic order. */
  predicate StrLe(a: string, b: string)
    decreases |a|
  {
    a == [] || (b != [] && (a[0] < b[0] || (a[0] == b[0] && StrLe(a[1..], b[1..]))))
  }

  lemma {:induction false} StrLeTotal(a: string, b: string)
    ensures StrLe(a, b) || StrLe(b, a)
    decreases |a|
  {
    if a != [] && b != [] && a[0] == b[0] {
      StrLeTotal(a[1..], b[1..]);
    }
  }

  lemma {:induction false} StrLeTrans(a: string, b: string, c: string)
    requires StrLe(a, b) && StrLe(b, c)
    ensures StrLe(a, c)
    decreases |a|
  {
    if a != [] && a[0] == b[0] && b[0] == c[0] {
      StrLeTrans(a[1..], b[1..], c[1..]);
    }
  }

  /** `(a.column, a.gid, a.name) <= (b.column, b.gid, b.name)` */
  predicate KeyLe(a: BuildItem, b: BuildItem)
  {
    a.column < b.column
    || (a.column == b.column && (a.gid < b.gid || (a.gid == b.gid && StrLe(a.name, b.name))))
  }

  lemma KeyLeTotal(a: BuildItem, b: BuildItem)
    ensures KeyLe(a, b) || KeyLe(b, a)
  {
    StrLeTotal(a.name, b.name);
  }

  lemma KeyLeTrans(a: BuildItem, b: BuildItem, c: BuildItem)
    requires KeyLe(a, b) && KeyLe(b, c)
    ensures KeyLe(a, c)
  {
    if a.column == b.column == c.column && a.gid == b.gid == c.gid {
      StrLeTrans(a.name, b.name, c.name);
    }
  }

  /** Each item's key is at most the next one's. */
  predicate SortedByKey(s: seq<BuildItem>)
  {
    forall i :: 0 < i < |s| ==> KeyLe(s[i - 1], s[i])
  }

  /** Neighbouring order gives order between any two positions. */
  lemma {:induction false} SortedByKeyPairwise(s: seq<BuildItem>, i: nat, j: nat)
    requires SortedByKey(s) && i <= j < |s|
    ensures i == j || KeyLe(s[i], s[j])
    decreases j - i
  {
    if i < j - 1 {
      SortedByKeyPairwise(s, i, j - 1);
      KeyLeTrans(s[i], s[j - 1], s[j]);
    }
  }

  /** Insert `x` after every element whose key is not greater, keeping equal keys in arrival order. */
  function Insert(x: BuildItem, s: seq<BuildItem>): (r: seq<BuildItem>)
    ensures |r| == |s| + 1 && multiset(r) == multiset(s) + multiset{x}
    ensures r[|r| - 1] == x || (s != [] && r[|r| - 1] == s[|s| - 1])
    decreases |s|
  {
    if s == [] || KeyLe(s[|s| - 1], x) then s + [x]
    else
      var init := s[..|s| - 1];
      assert s == init + [s[|s| - 1]];
      Insert(x, init) + [s[|s| - 1]]
  }

  lemma {:induction false} InsertSorted(x: BuildItem, s: seq<BuildItem>)
    requires SortedByKey(s)
    ensures SortedByKey(Insert(x, s))
    decreases |s|
  {
    if s != [] && !KeyLe(s[|s| - 1], x) {
      var init := s[..|s| - 1];
      var last := s[|s| - 1];
      InsertSorted(x, init);
      var r := Insert(x, init);
      KeyLeTotal(last, x);
      if r[|r| - 1] != x {
        assert init != [] && r[|r| - 1] == init[|init| - 1];
        assert KeyLe(s[|s| - 2], s[|s| - 1]);
      }
      var r2 := r + [last];
      forall i | 0 < i < |r2|
        ensures KeyLe(r2[i - 1], r2[i])
      {
        if i < |r| {
          assert r2[i - 1] == r[i - 1] && r2[i] == r[i];
        }
      }
    }
  }

  /** `results.sort(key=lambda r: (r["column"], r["gid"], r["name"]))` */
  function SortByKey(s: seq<BuildItem>): (r: seq<BuildItem>)
    ensures multiset(r) == multiset(s)
  {
    if s == [] then []
    else
      assert s == s[..|s| - 1] + [s[|s| - 1]];
      Insert(s[|s| - 1], SortByKey(s[..|s| - 1]))
  }

  /** The sort orders by (column, gid, name) and keeps every item. */
  lemma {:induction false} SortByKeySorted(s: seq<BuildItem>)
    ensures SortedByKey(SortByKey(s)) && multiset(SortByKey(s)) == multiset(s)
  {
    if s != [] {
      SortByKeySorted(s[..|s| - 1]);
      InsertSorted(s[|s| - 1], SortByKey(s[..|s| - 1]));
    }
  }

  /**
    `extract_build_items(html)` with the pattern `gid-(\d+)` it was written
    for: the matching items of every `.build_list__column`, sorted by
    (column, gid, name).
   */
  method ExtractBuildItems(container: Option<seq<seq<Item>>>) returns (results: seq<BuildItem>)
    ensures container.None? ==> results == []
    ensures container.Some? ==> results == SortByKey(Collected(container.value))
  {
    if container.None? {
      return [];
    }
    var columns: seq<seq<Item>> := container.value;
    results := [];
    for c := 0 to |columns|
      invariant results == Collected(columns[..c])
    {
      assert columns[..c + 1][..c] == columns[..c];
      var found := CollectColumn(columns[c], c);
      results := results + found;
    }
    assert columns[..|columns|] == columns;
    results := SortByKey(results);
  }

  /** The inner loop of `extract_build_items`, over the items of column `c`. */
  method CollectColumn(col: seq<Item>, c: nat) returns (found: seq<BuildItem>)
    ensures found == ColumnResults(col, c)
  {
    found := [];
    for i := 0 to |col|
      invariant found == ColumnResults(col[..i], c)
    {
      assert col[..i + 1][..i] == col[..i];
      var r := ItemResult(col[i], c);
      if r.Some? {
        found := found + [r.value];
      }
    }
    assert col[..|col|] == col;
  }

  /** The corrected helper's output is sorted, complete, and every gid is read from its item's id. */
  lemma BuildItemsProperties(columns: seq<seq<Item>>)
    ensures SortedByKey(SortByKey(Collected(columns)))
    ensures multiset(SortByKey(Collected(columns))) == multiset(Collected(columns))
    ensures forall x :: x in SortByKey(Collected(columns)) ==> x.column < |columns| && GidOf(x.rawId) == Some(x.gid)
  {
    SortByKeySorted(Collected(columns));
    forall x | x in SortByKey(Collected(columns))
      ensures x.column < |columns| && GidOf(x.rawId) == Some(x.gid)
    {
      assert x in multiset(SortByKey(Collected(columns)));
    }
  }

  /**
    `^\d{7}$` searched in an id: seven digits, optionally followed by one
    newline (`$` also matches before a final newline).
   */
  predicate SevenDigitId(s: string)
  {
    SevenDigits(s) || (|s| == 8 && s[7] == '\n' && SevenDigits(s[..7]))
  }

  /**
    `extract_build_items` as written: the module-level `_GID_RE` it reads
    at call time has been rebound to `^\d{7}$`, which has no group. Ids that
    do not match are skipped, and the first one that matches makes
    `m.group(1)` raise IndexError, so the helper never returns an item.
   */
  method ExtractBuildItemsAsWritten(container: Option<seq<seq<Item>>>) returns (r: Result<seq<BuildItem>>)
    ensures r.Ok? ==> r.value == []
    ensures r.Err? <==> container.Some? && exists c, i :: && 0 <= c < |container.value|
                                                          && 0 <= i < |container.value[c]|
                                                          && SevenDigitId(container.value[c][i].rawId)
    ensures r.Err? ==> r.error.IndexError?
  {
    if container.None? {
      return Ok([]);
    }
    var columns: seq<seq<Item>> := container.value;
    for c := 0 to |columns|
      invariant forall c', i :: 0 <= c' < c && 0 <= i < |columns[c']| ==> !SevenDigitId(columns[c'][i].rawId)
    {
      var col: seq<Item> := columns[c];
      for i := 0 to |col|
        invariant forall c', i' :: 0 <= c' < c && 0 <= i' < |columns[c']| ==> !SevenDigitId(columns[c'][i'].rawId)
        invariant forall i' :: 0 <= i' < i ==> !SevenDigitId(col[i'].rawId)
      {
        if SevenDigitId(col[i].rawId) {
          return Err(IndexError("no such group"));
        }
      }
    }
    r := Ok([]);
  }

  /** The number after "gid-" in "gid-19". */
  lemma GidOfNineteen()
    ensures GidOf("gid-19") == Some(19)
  {
    var s := "gid-19";
    assert GidAt(s, 0) by { assert s[0..4] == "gid-"; }
    assert DigitRun(s, 6) == [];
    assert DigitRun(s, 5) == "9";
    assert DigitRun(s, 4) == "19";
    assert DigitsValue("19") == 19 by { assert "19"[..1] == "1"; assert "1"[..0] == ""; }
  }

  /** A block of one non-empty line is its own name. */
  lemma ItemNameOneLine(block: string)
    requires block != "" && '\n' !in block
    ensures ItemName(block) == block
  {
    SplitOnNone(block, '\n');
  }

  /** A page with one column of one item collects that item's result. */
  lemma CollectedSingle(item: Item)
    ensures Collected([[item]]) == (match ItemResult(item, 0) case None => [] case Some(x) => [x])
  {
    var cols := [[item]];
    assert cols[..0] == [];
    assert [item][..0] == [];
    assert ColumnResults([item], 0) == (match ItemResult(item, 0) case None => [] case Some(x) => [x]);
    assert Collected(cols) == Collected(cols[..0]) + ColumnResults([item], 0);
  }

  /** An item with the id "gid-19" is found by the corrected helper and skipped as written. */
  lemma GidNineteen()
    ensures Collected([[Item("gid-19", "Barracks")]]) == [BuildItem(19, "Barracks", 0, "gid-19")]
    ensures !SevenDigitId("gid-19")
  {
    GidOfNineteen();
    ItemNameOneLine("Barracks");
    CollectedSingle(Item("gid-19", "Barracks"));
  }
}
