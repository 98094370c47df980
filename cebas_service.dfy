/** The CEBAS dashboard service (api/functions/dashboard/CEBAS/cebas_service.py):
    one pass over the "GRÁFICOS" worksheet that groups label/value rows under
    the category rows before them. */
module CebasService {
  import opened Common
  import GraphApi

  /** The category open before any category row. */
  const Analitico := "ANALÍTICO"

  /** The value of an item: a number or boolean cell kept as it is, or the
      `float()` of a numeric text (parsing is not modelled: the text is kept). */
  datatype Value = Kept(cell: Cell) | Parsed(text: string)

  /** `{"label": ..., "value": ...}`; `text` is the label. */
  datatype Item = Item(text: string, value: Value)

  /** One entry of `detalhes`: a category and its items.  `detalhes` is a
      Python dict, kept here as its entries in insertion order. */
  datatype Group = Group(category: string, items: seq<Item>)

  /** `{"resumo": [...], "detalhes": {...}}` */
  datatype Dashboard = Dashboard(resumo: seq<Item>, detalhes: seq<Group>)

  /** The position of the first dot of a text that has one. */
  function FirstDot(s: string): (k: nat)
    requires '.' in s
    ensures k < |s| && s[k] == '.' && '.' !in s[..k]
  {
    if s[0] == '.' then 0
    else
      var k := 1 + FirstDot(s[1..]);
      assert s[..k] == [s[0]] + s[1..][..k - 1];
      k
  }

  /** `s.replace('.', '', 1)`: the first dot removed. */
  function RemoveFirstDot(s: string): (r: string)
    ensures '.' !in s ==> r == s
    ensures '.' in s ==> |r| == |s| - 1
  {
    if s == [] then []
    else if s[0] == '.' then s[1..]
    else [s[0]] + RemoveFirstDot(s[1..])
  }

  /** What is removed is the first dot, and only it. */
  lemma {:induction false} RemoveFirstDotSpec(s: string)
    requires '.' in s
    ensures var k := FirstDot(s); RemoveFirstDot(s) == s[..k] + s[k + 1..]
  {
    var k := FirstDot(s);
    forall i | 0 <= i < k
      ensures s[i] != '.'
    {
      assert s[i] == s[..k][i];
    }
    RemoveDotAt(s, k);
  }

  /** Removing the first dot, found at index `k`. */
  lemma {:induction false} RemoveDotAt(s: string, k: nat)
    requires k < |s| && s[k] == '.'
    requires forall i :: 0 <= i < k ==> s[i] != '.'
    ensures RemoveFirstDot(s) == s[..k] + s[k + 1..]
    decreases k
  {
    if k == 0 {
      assert s[..0] + s[1..] == s[1..];
    } else {
      var t := s[1..];
      RemoveDotAt(t, k - 1);
      assert s[..k] == [s[0]] + t[..k - 1];
      assert s[k + 1..] == t[k..];
    }
  }

  /** `s.replace('.', '', 1).isdigit()`: digits with at most one dot, and at
      least one digit. */
  predicate IsNumeric(s: string) {
    var t := RemoveFirstDot(s);
    t != [] && forall i :: 0 <= i < |t| ==> IsDigit(t[i])
  }

  /** `str(raw_label).strip() if raw_label else ""` */
  function Label(c: Cell): string {
    if Truthy(c) then Trim(Str(c)) else ""
  }

  /** The value column read as a number: numbers and booleans (a Python bool
      is an int) as they are, a truthy text only when it is numeric. */
  function Valor(c: Cell): (v: Option<Value>)
    ensures c.Text? ==> (v.Some? <==> IsNumeric(c.s))
    ensures c.Text? && v.Some? ==> v == Some(Parsed(c.s))
    ensures !c.Text? ==> v == Some(Kept(c))
  {
    match c
    case Number(_, _) => Some(Kept(c))
    case Boolean(_) => Some(Kept(c))
    case Text(s) => if s != "" && IsNumeric(s) then Some(Parsed(s)) else None
  }

  /** The first entry of `d` for `category`, if any. */
  function Find(d: seq<Group>, category: string): (r: Option<nat>)
    ensures r.Some? ==> r.value < |d| && d[r.value].category == category
    ensures r.Some? ==> forall i :: 0 <= i < r.value ==> d[i].category != category
    ensures r.None? <==> forall i :: 0 <= i < |d| ==> d[i].category != category
  {
    if d == [] then None
    else if d[0].category == category then Some(0)
    else
      var r := Find(d[1..], category);
      if r.Some? then Some(r.value + 1) else None
  }

  /** `d[category] = items`: replaced in place, or added at the end. */
  function Assign(d: seq<Group>, category: string, items: seq<Item>): seq<Group> {
    var i := Find(d, category);
    if i.Some? then d[i.value := Group(category, items)] else d + [Group(category, items)]
  }

  /** The loop's variables: the two lists and the current category. */
  datatype State = State(resumo: seq<Item>, detalhes: seq<Group>, current: string)

  const Start := State([], [Group(Analitico, [])], Analitico)

  /** A row that starts a category. */
  predicate IsCategoryRow(row: Row) {
    |row| > 2 && Label(row[1]) != "" && !IsNumeric(Label(row[1])) && Valor(row[2]).None?
  }

  /** A row that emits an item. */
  predicate IsItemRow(row: Row) {
    |row| > 2 && Label(row[1]) != "" && Valor(row[2]).Some?
  }

  /** One iteration of the loop.  A row of at most two cells, or one that
      neither starts a category nor emits an item, changes nothing.  A
      category row (for instance one whose label is "-3" or free text and
      whose value is not numeric) makes its label the current category,
      creates its entry only when it is absent, and emits nothing.  An item
      row keeps the current category and adds its item to `resumo` exactly
      under "ANALÍTICO". */
  function Step(s: State, row: Row): (r: State)
    ensures |row| <= 2 || (!IsCategoryRow(row) && !IsItemRow(row)) ==> r == s
    ensures IsCategoryRow(row) ==>
      && r.current == Label(row[1]) && r.resumo == s.resumo
      && (Find(s.detalhes, Label(row[1])).Some? ==> r.detalhes == s.detalhes)
      && (Find(s.detalhes, Label(row[1])).None? ==> r.detalhes == s.detalhes + [Group(Label(row[1]), [])])
    ensures IsItemRow(row) ==>
      && r.current == s.current
      && r.resumo == (if s.current == Analitico then s.resumo + [Item(Label(row[1]), Valor(row[2]).value)] else s.resumo)
  {
    if row == [] || |row| <= 2 then s
    else
      var lbl := Label(row[1]);
      var valor := Valor(row[2]);
      if lbl != "" && !IsNumeric(lbl) && valor.None? then
        State(s.resumo, if Find(s.detalhes, lbl).Some? then s.detalhes else s.detalhes + [Group(lbl, [])], lbl)
      else if lbl != "" && valor.Some? then
        var item := Item(lbl, valor.value);
        var resumo := if s.current == Analitico then s.resumo + [item] else s.resumo;
        var i := Find(s.detalhes, s.current);
        if i.Some? then
          State(resumo, s.detalhes[i.value := Group(s.current, s.detalhes[i.value].items + [item])], s.current)
        else
          State(resumo, Assign(s.detalhes, "Outros", [item]), s.current)
      else s
  }

  /** The loop run over the first `n` rows. */
  function RunTo(rows: seq<Row>, n: nat): State
    requires n <= |rows|
  {
    if n == 0 then Start else Step(RunTo(rows, n - 1), rows[n - 1])
  }

  /** The loop run over all the rows.  What `_process_data` promises about
      its result: `resumo` is the "ANALÍTICO" list, element for element;
      every current category has an entry; no category appears twice;
      every item has a label; and there is one item per item row. */
  function Run(rows: seq<Row>): (s: State)
    ensures && |s.detalhes| >= 1 && s.detalhes[0].category == Analitico
            && s.resumo == s.detalhes[0].items
            && Find(s.detalhes, s.current).Some?
            && DistinctCategories(s.detalhes)
            && (forall i, k :: 0 <= i < |s.detalhes| && 0 <= k < |s.detalhes[i].items| ==> s.detalhes[i].items[k].text != "")
            && Total(s.detalhes) == |ItemRows(rows)|
  {
    RunKeepsInv(rows, |rows|);
    assert rows[..|rows|] == rows;
    RunTo(rows, |rows|)
  }

  /** The body of the loop for one row. */
  method ApplyRow(resumo: seq<Item>, detalhes: seq<Group>, current: string, row: Row)
    returns (resumo': seq<Item>, detalhes': seq<Group>, current': string)
    ensures State(resumo', detalhes', current') == Step(State(resumo, detalhes, current), row)
  {
    resumo', detalhes', current' := resumo, detalhes, current;
    if row == [] || |row| <= 2 {
      return;
    }
    var lbl := Label(row[1]);
    var isLabelNumeric := IsNumeric(lbl);
    var valor := Valor(row[2]);
    if lbl != "" && !isLabelNumeric && valor.None? {
      current' := lbl;
      if Find(detalhes', current').None? {
        detalhes' := detalhes' + [Group(current', [])];
      }
      return;
    }
    if lbl != "" && valor.Some? {
      var item := Item(lbl, valor.value);
      if current' == Analitico {
        resumo' := resumo' + [item];
      }
      var i := Find(detalhes', current');
      if i.Some? {
        detalhes' := detalhes'[i.value := Group(current', detalhes'[i.value].items + [item])];
      } else {
        detalhes' := Assign(detalhes', "Outros", [item]);
      }
    }
  }

  /** `_process_data`: `{}` (None here) without a `values` key, otherwise
      the summary and the grouped details. */
  method ProcessData(data: Sheet) returns (r: Option<Dashboard>)
    ensures r.None? <==> data.values.None?
    ensures r.Some? ==> var s := Run(data.values.value); r.value == Dashboard(s.resumo, s.detalhes)
  {
    if data.IsEmpty() || data.values.None? {
      return None;
    }
    var rows := data.values.value;
    var resumo: seq<Item> := [];
    var detalhes: seq<Group> := [Group(Analitico, [])];
    var current := Analitico;
    for n := 0 to |rows|
      invariant State(resumo, detalhes, current) == RunTo(rows, n)
    {
      resumo, detalhes, current := ApplyRow(resumo, detalhes, current, rows[n]);
    }
    r := Some(Dashboard(resumo, detalhes));
  }

  /** `get_cebas_dashboard_data`: the worksheet read through the path memo,
      then processed. */
  method GetCebasDashboardData(memo: GraphApi.PathIdCache,
                               siteReply: GraphApi.GraphReply<map<string, Json>>,
                               fileReply: GraphApi.GraphReply<map<string, Json>>,
                               sheetReply: GraphApi.GraphReply<Sheet>)
    returns (r: Result<Option<Dashboard>>)
    modifies memo
    ensures var (ids, after) := GraphApi.Resolve(old(memo.memo), "sites/EquipeDEPAD", "General/DEPAD/Cebas/BASE CEBAS.xlsx", siteReply, fileReply);
      && memo.memo == after
      && (ids.Err? ==> r == Err(ids.error))
      && (ids.Ok? && !sheetReply.Got? ==> r == Err(GraphApi.GraphFailure(sheetReply)))
      && (ids.Ok? && sheetReply.Got? && sheetReply.body.values.None? ==> r == Ok(None))
      && (ids.Ok? && sheetReply.Got? && sheetReply.body.values.Some? ==>
            var s := Run(sheetReply.body.values.value); r == Ok(Some(Dashboard(s.resumo, s.detalhes))))
  {
    var url, raw := memo.GetSpreadsheetByPath("sites/EquipeDEPAD", "General/DEPAD/Cebas/BASE CEBAS.xlsx", "GRÁFICOS", "A1", "Z100",
                                              siteReply, fileReply, sheetReply);
    if raw.Err? {
      return Err(raw.error);
    }
    var processed := ProcessData(raw.value);
    r := Ok(processed);
  }

  // ---------------------------------------------------------------------
  // What the pass keeps true

  /** The items of every entry. */
  function Total(d: seq<Group>): nat {
    if d == [] then 0 else |d[0].items| + Total(d[1..])
  }

  predicate DistinctCategories(d: seq<Group>) {
    forall i, j :: 0 <= i < j < |d| ==> d[i].category != d[j].category
  }

  /** The invariant of the loop: "ANALÍTICO" is the first entry and `resumo`
      is its list; the current category has an entry; no category appears
      twice; every item has a label. */
  ghost predicate Inv(s: State) {
    && |s.detalhes| >= 1
    && s.detalhes[0].category == Analitico
    && s.resumo == s.detalhes[0].items
    && Find(s.detalhes, s.current).Some?
    && DistinctCategories(s.detalhes)
    && LabelsFilled(s.detalhes)
  }

  /** Every item of every entry has a label. */
  predicate LabelsFilled(d: seq<Group>) {
    forall i, k :: 0 <= i < |d| && 0 <= k < |d[i].items| ==> d[i].items[k].text != ""
  }

  /** Appending a labelled item to one entry keeps the categories and their
      labels, and adds one item. */
  lemma AppendToGroup(d: seq<Group>, i: nat, item: Item)
    requires i < |d| && DistinctCategories(d) && LabelsFilled(d) && item.text != ""
    ensures var e := d[i := Group(d[i].category, d[i].items + [item])];
      && |e| == |d|
      && (forall j :: 0 <= j < |d| ==> e[j].category == d[j].category)
      && (forall j :: 0 <= j < |d| && j != i ==> e[j] == d[j])
      && DistinctCategories(e) && LabelsFilled(e)
      && Total(e) == Total(d) + 1
  {
    var g := Group(d[i].category, d[i].items + [item]);
    TotalUpdate(d, i, g);
    var e := d[i := g];
    forall j, k | 0 <= j < |e| && 0 <= k < |e[j].items| ensures e[j].items[k].text != "" {
      if j == i && k == |d[i].items| {
        assert e[j].items[k] == item;
      } else if j == i {
        assert e[j].items[k] == d[i].items[k];
      }
    }
  }

  lemma TotalUpdate(d: seq<Group>, i: nat, g: Group)
    requires i < |d|
    ensures Total(d[i := g]) == Total(d) - |d[i].items| + |g.items|
  {
    if i > 0 {
      TotalUpdate(d[1..], i - 1, g);
      assert d[i := g][1..] == d[1..][i - 1 := g];
    }
  }

  lemma {:induction false} TotalAppend(d: seq<Group>, g: Group)
    ensures Total(d + [g]) == Total(d) + |g.items|
  {
    if d != [] {
      TotalAppend(d[1..], g);
      assert (d + [g])[1..] == d[1..] + [g];
    }
  }

  /** One step keeps the invariant; it never reaches the "Outros" fallback,
      and it adds one item exactly on an item row. */
  lemma StepKeepsInv(s: State, row: Row)
    requires Inv(s)
    ensures Inv(Step(s, row))
    ensures Total(Step(s, row).detalhes) == Total(s.detalhes) + (if IsItemRow(row) then 1 else 0)
  {
    if IsCategoryRow(row) {
      CategoryStepKeepsInv(s, row);
    } else if IsItemRow(row) {
      ItemStepKeepsInv(s, row);
    } else {
      assert Step(s, row) == s;
    }
  }

  lemma CategoryStepKeepsInv(s: State, row: Row)
    requires Inv(s) && IsCategoryRow(row)
    ensures Inv(Step(s, row))
    ensures Total(Step(s, row).detalhes) == Total(s.detalhes)
  {
    SwitchKeepsInv(s, Label(row[1]));
  }

  /** Switching to a category, with its entry added when absent. */
  lemma SwitchKeepsInv(s: State, category: string)
    requires Inv(s)
    ensures var d := if Find(s.detalhes, category).Some? then s.detalhes else s.detalhes + [Group(category, [])];
      && Inv(State(s.resumo, d, category))
      && Total(d) == Total(s.detalhes)
  {
    if Find(s.detalhes, category).None? {
      var g := Group(category, []);
      TotalAppend(s.detalhes, g);
      var d := s.detalhes + [g];
      assert d[|d| - 1].category == category;
      assert Find(d, category).Some?;
      assert d[0] == s.detalhes[0];
    }
  }

  lemma ItemStepKeepsInv(s: State, row: Row)
    requires Inv(s) && IsItemRow(row)
    ensures Inv(Step(s, row))
    ensures Total(Step(s, row).detalhes) == Total(s.detalhes) + 1
  {
    ItemRowAppends(s, row);
    var t := Step(s, row);
    var i := Find(s.detalhes, s.current).value;
    var item := Item(Label(row[1]), Valor(row[2]).value);
    AppendToGroup(s.detalhes, i, item);
    assert t.detalhes == s.detalhes[i := Group(s.detalhes[i].category, s.detalhes[i].items + [item])];
    assert t.detalhes[i].category == s.current;
    if s.current == Analitico {
      assert i == 0;
    } else {
      assert t.detalhes[0] == s.detalhes[0];
    }
  }


  /** The invariant holds after every prefix of the rows, and the entries hold
      one item per item row. */
  lemma {:induction false} RunKeepsInv(rows: seq<Row>, n: nat)
    requires n <= |rows|
    ensures Inv(RunTo(rows, n))
    ensures Total(RunTo(rows, n).detalhes) == |ItemRows(rows[..n])|
  {
    if n == 0 {
      assert Find(Start.detalhes, Analitico) == Some(0);
    } else {
      RunKeepsInv(rows, n - 1);
      RunToStep(rows, n);
      ItemRowsPrefix(rows, n);
    }
  }

  /** One more iteration keeps the invariant and counts the row's item. */
  lemma RunToStep(rows: seq<Row>, n: nat)
    requires 0 < n <= |rows| && Inv(RunTo(rows, n - 1))
    ensures Inv(RunTo(rows, n))
    ensures Total(RunTo(rows, n).detalhes) == Total(RunTo(rows, n - 1).detalhes) + (if IsItemRow(rows[n - 1]) then 1 else 0)
  {
    StepKeepsInv(RunTo(rows, n - 1), rows[n - 1]);
  }

  /** One more row adds one more item row exactly when it is one. */
  lemma ItemRowsPrefix(rows: seq<Row>, n: nat)
    requires 0 < n <= |rows|
    ensures |ItemRows(rows[..n])| == |ItemRows(rows[..n - 1])| + (if IsItemRow(rows[n - 1]) then 1 else 0)
  {
    assert rows[..n][..n - 1] == rows[..n - 1];
  }

  /** The item rows, in order. */
  function ItemRows(rows: seq<Row>): (r: seq<Row>)
    ensures forall row :: row in r <==> row in rows && IsItemRow(row)
    decreases |rows|
  {
    if rows == [] then []
    else ItemRows(rows[..|rows| - 1]) + (if IsItemRow(rows[|rows| - 1]) then [rows[|rows| - 1]] else [])
  }

  /** An item row appends its item to the current category's list (and to
      `resumo` under "ANALÍTICO"), and leaves every other entry alone. */
  lemma ItemRowAppends(s: State, row: Row)
    requires Inv(s) && IsItemRow(row)
    ensures var t := Step(s, row); var i := Find(s.detalhes, s.current).value;
      var item := Item(Label(row[1]), Valor(row[2]).value);
      && t.current == s.current
      && |t.detalhes| == |s.detalhes|
      && t.detalhes[i] == Group(s.current, s.detalhes[i].items + [item])
      && (forall j :: 0 <= j < |s.detalhes| && j != i ==> t.detalhes[j] == s.detalhes[j])
      && t.resumo == (if s.current == Analitico then s.resumo + [item] else s.resumo)
  {
  }
}
