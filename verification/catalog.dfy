/** The service catalog: the spreadsheet rows of every service are cleaned
    (blank cells filled, text trimmed, missing sub-categories and categories
    given placeholder names) and grouped into a nested lookup
    main service -> sub-category -> category -> row, together with the
    button lists the conversation offers. Reading the spreadsheet files is
    outside the model: the sheets arrive as values. */
module Catalog {
  import opened Wrappers
  import opened Text
  import opened Assoc
  import opened StringOrder

  /** A spreadsheet cell after loading: text or a number. */
  datatype Cell = TextCell(text: string) | NumCell(num: real)

  /** A catalog entry: column name -> cell. */
  type Row = map<string, Cell>

  const AppDevelopment := "App Development"
  const DefaultSub := "_default"
  const UntitledCategory := "Untitled Category"

  /** One spreadsheet row as read. `None` stands for an empty (NaN) cell. */
  datatype SheetRow = SheetRow(
    subCategory: Option<string>,
    category: Option<string>,
    columns: map<string, Option<Cell>>)

  /** The rows of one service's spreadsheet, tagged with its main service. */
  datatype Sheet = Sheet(mainService: string, rows: seq<SheetRow>)

  /** A cleaned row with its three grouping keys. */
  datatype CleanRow = CleanRow(main: string, sub: string, category: string, row: Row)

  type Services = Assoc<string, Assoc<string, Assoc<string, Row>>>

  datatype Catalog = Catalog(
    services: Services,
    mainServices: seq<string>,
    otherSubCategories: Assoc<string, seq<string>>,
    appSubCategories: Assoc<string, seq<string>>)

  // ---------------------------------------------------------------------
  // Cleaning

  /** `fillna('')` followed by stripping text cells. */
  function CleanCell(c: Option<Cell>): (r: Cell)
    ensures c.None? ==> r == TextCell("")
    ensures c.Some? && c.value.NumCell? ==> r == c.value
    ensures c.Some? && c.value.TextCell? ==> r.TextCell? && r.text == Strip(c.value.text)
  {
    match c
    case None => TextCell("")
    case Some(TextCell(s)) => TextCell(Strip(s))
    case Some(NumCell(x)) => NumCell(x)
  }

  /** The sub-category key: an empty cell, blank text or the text `nan`
      becomes the `_default` placeholder; anything else is kept, trimmed. */
  function NormalizeSubCategory(raw: Option<string>): (r: string)
    ensures r != ""
    ensures raw.None? ==> r == DefaultSub
    ensures raw.Some? && Strip(raw.value) in {"", "nan"} ==> r == DefaultSub
    ensures raw.Some? && Strip(raw.value) !in {"", "nan"} ==> r == Strip(raw.value)
  {
    var t := if raw.Some? then Strip(raw.value) else "";
    if t == "" || t == "nan" then DefaultSub else t
  }

  /** The category key: an empty cell or blank text becomes
      `Untitled Category`. */
  function NormalizeCategory(raw: Option<string>): (r: string)
    ensures r != ""
    ensures raw.Some? && Strip(raw.value) != "" ==> r == Strip(raw.value)
    ensures (raw.None? || Strip(raw.value) == "") ==> r == UntitledCategory
  {
    var t := if raw.Some? then Strip(raw.value) else "";
    if t == "" then UntitledCategory else t
  }

  function CleanSheetRow(main: string, raw: SheetRow): (r: CleanRow)
    ensures r.main == Strip(main)
    ensures r.sub == NormalizeSubCategory(raw.subCategory)
    ensures r.category == NormalizeCategory(raw.category)
  {
    var m := Strip(main);
    var sub := NormalizeSubCategory(raw.subCategory);
    var cat := NormalizeCategory(raw.category);
    var cells := map k | k in raw.columns :: CleanCell(raw.columns[k]);
    CleanRow(m, sub, cat,
      cells["main_service" := TextCell(m)]["sub_category" := TextCell(sub)]["category" := TextCell(cat)])
  }

  /** The rows of all sheets, in sheet order, cleaned, and nothing else. */
  function CleanSheets(sheets: seq<Sheet>): (rows: seq<CleanRow>)
    ensures Placed(sheets, rows)
    ensures forall r :: r in rows ==> r.sub != "" && r.category != ""
  {
    if |sheets| == 0 then []
    else
      var s := sheets[0];
      var head := seq(|s.rows|, i requires 0 <= i < |s.rows| => CleanSheetRow(s.mainService, s.rows[i]));
      var tail := CleanSheets(sheets[1..]);
      PlaceRows(sheets, head, tail);
      head + tail
  }

  /** `rows` holds every row of every sheet and nothing else: row `i` of
      sheet `j` sits at position `RowsBefore(sheets, j) + i`, cleaned with
      its sheet's main service. */
  predicate Placed(sheets: seq<Sheet>, rows: seq<CleanRow>) {
    && |rows| == RowsBefore(sheets, |sheets|)
    && forall j, i :: 0 <= j < |sheets| && 0 <= i < |sheets[j].rows| ==> RowAt(sheets, rows, j, i)
  }

  /** Row `i` of sheet `j`, cleaned, sits at its position in `rows`. */
  predicate RowAt(sheets: seq<Sheet>, rows: seq<CleanRow>, j: nat, i: nat)
    requires j < |sheets| && i < |sheets[j].rows|
  {
    RowsBefore(sheets, j) + i < |rows| &&
    rows[RowsBefore(sheets, j) + i] == CleanSheetRow(sheets[j].mainService, sheets[j].rows[i])
  }

  /** Where one row of a placed sequence sits. */
  lemma PlacedAt(sheets: seq<Sheet>, rows: seq<CleanRow>, j: nat, i: nat)
    requires Placed(sheets, rows) && j < |sheets| && i < |sheets[j].rows|
    ensures RowAt(sheets, rows, j, i)
  {
  }

  /** The first sheet's cleaned rows followed by the placed rows of the
      other sheets place every row of every sheet. */
  lemma PlaceRows(sheets: seq<Sheet>, head: seq<CleanRow>, tail: seq<CleanRow>)
    requires sheets != []
    requires |head| == |sheets[0].rows|
    requires forall i :: 0 <= i < |head| ==> head[i] == CleanSheetRow(sheets[0].mainService, sheets[0].rows[i])
    requires Placed(sheets[1..], tail)
    ensures Placed(sheets, head + tail)
  {
    RowsBeforeShift(sheets, |sheets|);
    forall j, i | 0 <= j < |sheets| && 0 <= i < |sheets[j].rows|
      ensures RowAt(sheets, head + tail, j, i)
    {
      PlaceOne(sheets, sheets[1..], head, tail, j, i);
    }
  }

  /** One row of `PlaceRows`: from the first sheet it is in `head`, from a
      later sheet it is in `tail`, shifted by the first sheet's rows. */
  lemma PlaceOne(sheets: seq<Sheet>, rest: seq<Sheet>, head: seq<CleanRow>, tail: seq<CleanRow>, j: nat, i: nat)
    requires sheets != [] && rest == sheets[1..] && j < |sheets| && i < |sheets[j].rows|
    requires |head| == |sheets[0].rows|
    requires forall i :: 0 <= i < |head| ==> head[i] == CleanSheetRow(sheets[0].mainService, sheets[0].rows[i])
    requires Placed(rest, tail)
    ensures RowAt(sheets, head + tail, j, i)
  {
    if j == 0 {
      ConcatAtHead(head, tail, i);
    } else {
      RowsBeforeShift(sheets, j);
      assert rest[j - 1] == sheets[j];
      PlaceLater(rest, sheets[j], tail, j - 1, i);
      ConcatAt(head, tail, RowsBefore(rest, j - 1) + i);
    }
  }

  /** A row of a later sheet, found in the placed rows of the rest. */
  lemma PlaceLater(rest: seq<Sheet>, sheet: Sheet, tail: seq<CleanRow>, j: nat, i: nat)
    requires j < |rest| && rest[j] == sheet && i < |sheet.rows|
    requires Placed(rest, tail)
    ensures RowsBefore(rest, j) + i < |tail|
    ensures tail[RowsBefore(rest, j) + i] == CleanSheetRow(sheet.mainService, sheet.rows[i])
  {
    PlacedAt(rest, tail, j, i);
  }

  lemma ConcatAtHead<T>(a: seq<T>, b: seq<T>, k: nat)
    requires k < |a|
    ensures k < |a + b| && (a + b)[k] == a[k]
  {
  }

  lemma ConcatAt<T>(a: seq<T>, b: seq<T>, k: nat)
    requires k < |b|
    ensures |a| + k < |a + b| && (a + b)[|a| + k] == b[k]
  {
  }

  /** How many rows the first `n` sheets hold together. */
  function RowsBefore(sheets: seq<Sheet>, n: nat): nat
    requires n <= |sheets|
  {
    if n == 0 then 0 else RowsBefore(sheets, n - 1) + |sheets[n - 1].rows|
  }

  /** Counting from the second sheet on: the count of the first `n` sheets
      is the first sheet's rows plus the count of the next `n - 1`. */
  lemma {:induction false} RowsBeforeShift(sheets: seq<Sheet>, n: nat)
    requires 1 <= n <= |sheets|
    ensures RowsBefore(sheets, n) == |sheets[0].rows| + RowsBefore(sheets[1..], n - 1)
    decreases n
  {
    if n > 1 {
      RowsBeforeShift(sheets, n - 1);
      assert sheets[1..][n - 2] == sheets[n - 1];
    }
  }

  // ---------------------------------------------------------------------
  // Grouping

  /** Rows that take part in grouping: non-empty main service and category. */
  predicate Qualifies(r: CleanRow) {
    r.main != "" && r.category != ""
  }

  function Get3(s: Services, a: string, b: string, c: string): Option<Row> {
    Get(GetOr(GetOr(s, a, []), b, []), c)
  }

  /** `grouped[a][b][c] = v` on nested dictionaries that create missing
      levels on first use. */
  function Put3(s: Services, a: string, b: string, c: string, v: Row): (r: Services)
    ensures forall x, y, z :: Get3(r, x, y, z) == if x == a && y == b && z == c then Some(v) else Get3(s, x, y, z)
    ensures Keys(r) == if a in Keys(s) then Keys(s) else Keys(s) + [a]
  {
    var inner := GetOr(s, a, []);
    var leaf := GetOr(inner, b, []);
    NestedPut(s, a, b, c, v);
    Put(s, a, Put(inner, b, Put(leaf, c, v)))
  }

  /** The lookup through three levels after writing through them. */
  lemma NestedPut(s: Services, a: string, b: string, c: string, v: Row)
    ensures var inner := GetOr(s, a, []);
      var r := Put(s, a, Put(inner, b, Put(GetOr(inner, b, []), c, v)));
      forall x, y, z :: Get3(r, x, y, z) == if x == a && y == b && z == c then Some(v) else Get3(s, x, y, z)
  {
    forall x, y, z
      ensures Get3(Put(s, a, Put(GetOr(s, a, []), b, Put(GetOr(GetOr(s, a, []), b, []), c, v))), x, y, z)
        == if x == a && y == b && z == c then Some(v) else Get3(s, x, y, z)
    {
      NestedPutAt(s, a, b, c, v, x, y, z);
    }
  }

  lemma NestedPutAt(s: Services, a: string, b: string, c: string, v: Row, x: string, y: string, z: string)
    ensures Get3(Put(s, a, Put(GetOr(s, a, []), b, Put(GetOr(GetOr(s, a, []), b, []), c, v))), x, y, z)
      == if x == a && y == b && z == c then Some(v) else Get3(s, x, y, z)
  {
    var inner := GetOr(s, a, []);
    var leaf := GetOr(inner, b, []);
    var mid := Put(inner, b, Put(leaf, c, v));
    PutGetOr(s, a, mid, x);
    if x == a {
      PutGetOr(inner, b, Put(leaf, c, v), y);
    }
  }

  /** `d.get(x, default)` after `d[k] = v`. */
  lemma PutGetOr<V>(m: Assoc<string, seq<V>>, k: string, v: seq<V>, x: string)
    ensures GetOr(Put(m, k, v), x, []) == if x == k then v else GetOr(m, x, [])
  {
  }

  /** The state of the grouping loop. */
  datatype Groups = Groups(
    services: Services,
    appRaw: Assoc<string, seq<string>>,
    others: Assoc<string, seq<string>>)

  /** One iteration of the grouping loop. */
  function StepServices(s: Services, r: CleanRow): Services {
    if Qualifies(r) then Put3(s, r.main, r.sub, r.category, r.row) else s
  }

  function StepApp(app: Assoc<string, seq<string>>, r: CleanRow): Assoc<string, seq<string>> {
    if Qualifies(r) && r.main == AppDevelopment && r.sub != DefaultSub
    then Put(app, r.sub, GetOr(app, r.sub, []) + [r.category])
    else app
  }

  function StepOthers(others: Assoc<string, seq<string>>, r: CleanRow): Assoc<string, seq<string>> {
    if Qualifies(r) && r.main != AppDevelopment && r.sub != DefaultSub && r.sub !in GetOr(others, r.main, [])
    then Put(others, r.main, GetOr(others, r.main, []) + [r.sub])
    else others
  }

  function GroupAll(rows: seq<CleanRow>): Groups {
    if |rows| == 0 then Groups([], [], [])
    else
      var g := GroupAll(rows[..|rows| - 1]);
      var r := rows[|rows| - 1];
      Groups(StepServices(g.services, r), StepApp(g.appRaw, r), StepOthers(g.others, r))
  }

  /** `load_service_data` from the sheets that could be read: nothing at all
      when no sheet was found, otherwise the grouped catalog with the sorted
      main-service list and the sorted, de-duplicated App Development
      category lists. */
  function LoadServiceData(sheets: seq<Sheet>): (r: Option<Catalog>)
    ensures r.None? <==> |sheets| == 0
    ensures r.Some? ==> StrictlySorted(r.value.mainServices)
    ensures r.Some? ==> forall m :: m in r.value.mainServices <==> m in Keys(r.value.services)
    ensures r.Some? ==> forall k :: StrictlySorted(GetOr(r.value.appSubCategories, k, []))
  {
    if |sheets| == 0 then None
    else Some(Build(CleanSheets(sheets)))
  }

  function Build(rows: seq<CleanRow>): (c: Catalog)
    ensures StrictlySorted(c.mainServices)
    ensures forall m :: m in c.mainServices <==> m in Keys(c.services)
    ensures forall k :: StrictlySorted(GetOr(c.appSubCategories, k, []))
  {
    var g := GroupAll(rows);
    var app := MapValues(g.appRaw, SortedSet);
    assert forall k :: StrictlySorted(GetOr(app, k, [])) by {
      forall k ensures StrictlySorted(GetOr(app, k, [])) {
        if k in Keys(g.appRaw) {
          assert GetOr(app, k, []) == SortedSet(Get(g.appRaw, k).value);
        }
      }
    }
    Catalog(g.services, SortedSet(Keys(g.services)), g.others, app)
  }

  // ---------------------------------------------------------------------
  // Reference definitions, one key at a time

  /** The row a lookup should find: the last qualifying row with those keys. */
  function LastEntry(rows: seq<CleanRow>, a: string, b: string, c: string): Option<Row> {
    if |rows| == 0 then None
    else
      var r := rows[|rows| - 1];
      if Qualifies(r) && r.main == a && r.sub == b && r.category == c then Some(r.row)
      else LastEntry(rows[..|rows| - 1], a, b, c)
  }

  /** A later row with the same three keys overwrites an earlier one. */
  lemma {:induction false} GroupLookup(rows: seq<CleanRow>, a: string, b: string, c: string)
    ensures Get3(GroupAll(rows).services, a, b, c) == LastEntry(rows, a, b, c)
  {
    if |rows| > 0 {
      GroupLookup(rows[..|rows| - 1], a, b, c);
    }
  }

  /** The grouped main services are those of the qualifying rows. */
  lemma {:induction false} GroupMains(rows: seq<CleanRow>, m: string)
    ensures m in Keys(GroupAll(rows).services) <==> exists r :: r in rows && Qualifies(r) && r.main == m
  {
    if |rows| > 0 {
      var p := rows[..|rows| - 1];
      var l := rows[|rows| - 1];
      assert rows == p + [l];
      GroupMains(p, m);
    }
  }

  /** A row that contributes `cat` to the App Development sub-category `sub`. */
  predicate IsAppRow(r: CleanRow, sub: string, cat: string) {
    Qualifies(r) && r.main == AppDevelopment && r.sub == sub && sub != DefaultSub && r.category == cat
  }

  ghost predicate AppRow(rows: seq<CleanRow>, sub: string, cat: string) {
    exists r :: r in rows && IsAppRow(r, sub, cat)
  }

  lemma AppRowSnoc(p: seq<CleanRow>, l: CleanRow, sub: string, cat: string)
    ensures AppRow(p + [l], sub, cat) <==> AppRow(p, sub, cat) || IsAppRow(l, sub, cat)
  {
    if AppRow(p + [l], sub, cat) {
      var r :| r in p + [l] && IsAppRow(r, sub, cat);
      if r != l {
        assert r in p;
      }
    }
    if AppRow(p, sub, cat) {
      var r :| r in p && IsAppRow(r, sub, cat);
      assert r in p + [l];
    }
  }

  lemma StepAppEffect(app: Assoc<string, seq<string>>, l: CleanRow, sub: string)
    ensures GetOr(StepApp(app, l), sub, []) ==
      if IsAppRow(l, sub, l.category) then GetOr(app, sub, []) + [l.category] else GetOr(app, sub, [])
    ensures sub in Keys(StepApp(app, l)) <==> sub in Keys(app) || IsAppRow(l, sub, l.category)
  {
  }

  /** An App Development sub-category's category list holds exactly the
      categories of its rows. */
  lemma {:induction false} GroupAppCategories(rows: seq<CleanRow>, sub: string)
    ensures forall cat :: cat in GetOr(GroupAll(rows).appRaw, sub, []) <==> AppRow(rows, sub, cat)
  {
    if |rows| > 0 {
      var p := rows[..|rows| - 1];
      var l := rows[|rows| - 1];
      assert rows == p + [l];
      GroupAppCategories(p, sub);
      StepAppEffect(GroupAll(p).appRaw, l, sub);
      forall cat ensures cat in GetOr(GroupAll(rows).appRaw, sub, []) <==> AppRow(rows, sub, cat) {
        AppRowSnoc(p, l, sub, cat);
      }
    }
  }

  /** The sub-category is listed exactly when some row contributes to it. */
  lemma {:induction false} GroupAppSubCategories(rows: seq<CleanRow>, sub: string)
    ensures sub in Keys(GroupAll(rows).appRaw) <==> exists cat :: AppRow(rows, sub, cat)
  {
    if |rows| > 0 {
      var p := rows[..|rows| - 1];
      var l := rows[|rows| - 1];
      assert rows == p + [l];
      GroupAppSubCategories(p, sub);
      StepAppEffect(GroupAll(p).appRaw, l, sub);
      if exists cat :: AppRow(rows, sub, cat) {
        var cat :| AppRow(rows, sub, cat);
        AppRowSnoc(p, l, sub, cat);
      }
      if IsAppRow(l, sub, l.category) {
        AppRowSnoc(p, l, sub, l.category);
      }
      if exists cat :: AppRow(p, sub, cat) {
        var cat :| AppRow(p, sub, cat);
        AppRowSnoc(p, l, sub, cat);
      }
    }
  }

  /** The sub-categories of a service other than App Development, in the
      order they first appear, without `_default` and without repeats. */
  function FirstSeenSubs(rows: seq<CleanRow>, m: string): (subs: seq<string>)
    ensures DefaultSub !in subs
    ensures forall i, j :: 0 <= i < j < |subs| ==> subs[i] != subs[j]
    ensures forall x :: x in subs <==> (exists r :: r in rows && Qualifies(r) && r.main == m
                                                  && m != AppDevelopment && r.sub == x && x != DefaultSub)
  {
    if |rows| == 0 then []
    else
      var p := rows[..|rows| - 1];
      var l := rows[|rows| - 1];
      assert rows == p + [l];
      var before := FirstSeenSubs(p, m);
      if Qualifies(l) && l.main == m && m != AppDevelopment && l.sub != DefaultSub && l.sub !in before
      then before + [l.sub]
      else before
  }

  /** Appending rows only ever appends to the first-seen list. */
  lemma {:induction false} FirstSeenGrows(rows: seq<CleanRow>, k: nat, m: string)
    requires k <= |rows|
    ensures FirstSeenSubs(rows[..k], m) <= FirstSeenSubs(rows, m)
    decreases |rows| - k
  {
    if k < |rows| {
      var q := rows[..k + 1];
      assert q[..|q| - 1] == rows[..k];
      FirstSeenGrows(rows, k + 1, m);
    } else {
      assert rows[..k] == rows;
    }
  }

  lemma {:induction false} GroupOtherSubs(rows: seq<CleanRow>, m: string)
    ensures GetOr(GroupAll(rows).others, m, []) == FirstSeenSubs(rows, m)
    ensures m in Keys(GroupAll(rows).others) <==> FirstSeenSubs(rows, m) != []
  {
    if |rows| > 0 {
      var p := rows[..|rows| - 1];
      var l := rows[|rows| - 1];
      GroupOtherSubs(p, m);
      assert GroupAll(rows).others == StepOthers(GroupAll(p).others, l);
      StepOthersAt(GroupAll(p).others, l, m);
    }
  }

  /** One grouping step appends the row's sub-category to its main service's
      list when it is new there, and touches no other list. */
  lemma StepOthersAt(others: Assoc<string, seq<string>>, r: CleanRow, m: string)
    ensures var adds := Qualifies(r) && r.main == m && m != AppDevelopment && r.sub != DefaultSub
                        && r.sub !in GetOr(others, m, []);
      GetOr(StepOthers(others, r), m, []) == (if adds then GetOr(others, m, []) + [r.sub] else GetOr(others, m, []))
      && (m in Keys(StepOthers(others, r)) <==> m in Keys(others) || adds)
  {
  }

  // ---------------------------------------------------------------------
  // Queries used by the conversation and the proposal task

  /** `services_data.get(m, {}).get(sub, {})`. */
  function CategoriesOf(c: Catalog, m: string, sub: string): Assoc<string, Row> {
    GetOr(GetOr(c.services, m, []), sub, [])
  }

  /** Every row of a main service, sub-category by sub-category. */
  function AllRowsOf(c: Catalog, m: string): seq<Row> {
    Flatten(Values(GetOr(c.services, m, [])))
  }

  function Flatten(groups: seq<Assoc<string, Row>>): seq<Row> {
    if |groups| == 0 then [] else Values(groups[0]) + Flatten(groups[1..])
  }

  /** Creating the first two levels changes no lookup. */
  lemma EmptyLevelsAdded(s: Services, m: string, sub: string)
    ensures var inner := GetOr(s, m, []);
      var grown := Put(s, m, Put(inner, sub, GetOr(inner, sub, [])));
      forall x, y :: GetOr(GetOr(grown, x, []), y, []) == GetOr(GetOr(s, x, []), y, [])
  {
    var inner := GetOr(s, m, []);
    var leaf := GetOr(inner, sub, []);
    var grown := Put(s, m, Put(inner, sub, leaf));
    forall x, y
      ensures GetOr(GetOr(grown, x, []), y, []) == GetOr(GetOr(s, x, []), y, [])
    {
      PutGetOr(s, m, Put(inner, sub, leaf), x);
      if x == m {
        PutGetOr(inner, sub, leaf, y);
      }
    }
  }

  /** `services_data[m][sub][cat]` on the nested default dictionaries: the
      first two levels are created (empty) when missing, so the lookup may
      grow the catalog even when it fails. */
  function Lookup(c: Catalog, m: string, sub: string, cat: string): (r: (Option<Row>, Catalog))
    ensures r.0 == Get3(c.services, m, sub, cat)
    ensures m in Keys(r.1.services)
    ensures forall x, y, z :: Get3(r.1.services, x, y, z) == Get3(c.services, x, y, z)
    ensures r.1.mainServices == c.mainServices
  {
    var inner := GetOr(c.services, m, []);
    var leaf := GetOr(inner, sub, []);
    var grown := Put(c.services, m, Put(inner, sub, leaf));
    EmptyLevelsAdded(c.services, m, sub);
    (Get(leaf, cat), c.(services := grown))
  }
}
