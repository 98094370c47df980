/** The filter dialog of the dashboard (src/app/components/FilterModal.tsx):
    the option lists taken from the data, and the handlers that edit the
    filter state. */
module FilterModal {
  import opened Common
  import JsArray

  /** The fields of a community the dialog reads; a missing field is "". */
  datatype Community = Community(regiao: string, uf: string, municipio: string)

  /** The three multi-select fields. */
  datatype Field = Regiao | Uf | Municipio

  function ValueOf(c: Community, field: Field): string {
    match field
    case Regiao => c.regiao
    case Uf => c.uf
    case Municipio => c.municipio
  }

  /** `'crescente' | 'decrescente' | ''` */
  datatype Order = NoOrder | Crescente | Decrescente

  /** `FilterState` */
  datatype FilterState = FilterState(regiao: seq<string>, uf: seq<string>, municipio: seq<string>,
                                     vagasMin: string, vagasMax: string, ordenacao: Order)

  /** The state the dialog starts in, and returns to on reset. */
  const Initial := FilterState([], [], [], "", "", NoOrder)

  function Selected(f: FilterState, field: Field): seq<string> {
    match field
    case Regiao => f.regiao
    case Uf => f.uf
    case Municipio => f.municipio
  }

  function WithSelected(f: FilterState, field: Field, s: seq<string>): FilterState {
    match field
    case Regiao => f.(regiao := s)
    case Uf => f.(uf := s)
    case Municipio => f.(municipio := s)
  }

  /** Setting one field's selection sets that one and nothing else. */
  lemma SelectedAfterWith(f: FilterState, field: Field, s: seq<string>)
    ensures var g := WithSelected(f, field, s);
      && Selected(g, field) == s
      && (forall other :: other != field ==> Selected(g, other) == Selected(f, other))
      && g.vagasMin == f.vagasMin && g.vagasMax == f.vagasMax && g.ordenacao == f.ordenacao
  {
  }

  // ---------------------------------------------------------------------
  // Options

  /** The trimmed, non-empty values of a field among the first `n`
      communities, in data order. */
  function ValuesTo(data: seq<Community>, n: nat, field: Field): seq<string>
    requires n <= |data|
  {
    if n == 0 then []
    else
      var v := Trim(ValueOf(data[n - 1], field));
      ValuesTo(data, n - 1, field) + (if v != "" then [v] else [])
  }

  /** The trimmed, non-empty values of a field, in data order. */
  function Values(data: seq<Community>, field: Field): seq<string> {
    ValuesTo(data, |data|, field)
  }

  /** Some community offers `x` as its trimmed value of `field`. */
  predicate Offered(data: seq<Community>, field: Field, x: string) {
    exists c :: c in data && Trim(ValueOf(c, field)) == x
  }

  lemma ValuesSpec(data: seq<Community>, field: Field)
    ensures forall x :: x in Values(data, field) <==> x != "" && Offered(data, field, x)
  {
    forall x ensures x in Values(data, field) <==> x != "" && Offered(data, field, x) {
      ValuesMember(data, |data|, field, x);
      if x in Values(data, field) {
        var k :| 0 <= k < |data| && Trim(ValueOf(data[k], field)) == x;
        assert data[k] in data;
      }
      if Offered(data, field, x) {
        var c :| c in data && Trim(ValueOf(c, field)) == x;
        var k :| 0 <= k < |data| && data[k] == c;
      }
    }
  }

  lemma {:induction false} ValuesMember(data: seq<Community>, n: nat, field: Field, x: string)
    requires n <= |data|
    ensures x in ValuesTo(data, n, field) <==>
      x != "" && exists k :: 0 <= k < n && Trim(ValueOf(data[k], field)) == x
  {
    if n > 0 {
      ValuesMember(data, n - 1, field, x);
      ValuesStep(data, n - 1, field);
      var v := Trim(ValueOf(data[n - 1], field));
      var front := ValuesTo(data, n - 1, field);
      if x in ValuesTo(data, n, field) {
        if x in front {
          var k :| 0 <= k < n - 1 && Trim(ValueOf(data[k], field)) == x;
          assert 0 <= k < n;
        } else {
          assert x == v;
        }
      }
      if x != "" && exists k :: 0 <= k < n && Trim(ValueOf(data[k], field)) == x {
        var k :| 0 <= k < n && Trim(ValueOf(data[k], field)) == x;
        if k < n - 1 {
          assert x in front;
        } else {
          assert x == v;
        }
      }
    }
  }

  /** One more community adds its trimmed value when it is not blank. */
  lemma ValuesStep(data: seq<Community>, i: nat, field: Field)
    requires i < |data|
    ensures var v := Trim(ValueOf(data[i], field));
      ValuesTo(data, i + 1, field) == ValuesTo(data, i, field) + (if v != "" then [v] else [])
  {
  }

  /** `Array.from(set).sort()` of the values of a field: every trimmed
      non-empty value of the field once, in increasing order, and nothing
      else. */
  function OptionList(data: seq<Community>, field: Field): (r: seq<string>)
    ensures forall x :: x in r <==> x != "" && Offered(data, field, x)
    ensures JsArray.NoDuplicates(r)
    ensures JsArray.Sorted(r, JsArray.CharCodes)
  {
    JsArray.SortedDistinctSpec(Values(data, field));
    ValuesSpec(data, field);
    JsArray.SortedDistinct(Values(data, field))
  }

  /** The `options` memo: one pass over the data filling three sets, then
      each set sorted. */
  method Options(data: seq<Community>) returns (regioes: seq<string>, ufs: seq<string>, municipios: seq<string>)
    ensures regioes == OptionList(data, Regiao)
    ensures ufs == OptionList(data, Uf)
    ensures municipios == OptionList(data, Municipio)
  {
    var rs: seq<string> := [];
    var us: seq<string> := [];
    var ms: seq<string> := [];
    for i := 0 to |data|
      invariant rs == JsArray.Distinct(ValuesTo(data, i, Regiao))
      invariant us == JsArray.Distinct(ValuesTo(data, i, Uf))
      invariant ms == JsArray.Distinct(ValuesTo(data, i, Municipio))
    {
      rs, us, ms := AddItem(rs, us, ms, data, i);
    }
    regioes := SortStrings(rs);
    ufs := SortStrings(us);
    municipios := SortStrings(ms);
  }

  /** One `forEach` step: the values of community `i` added to the sets. */
  method AddItem(rs: seq<string>, us: seq<string>, ms: seq<string>, data: seq<Community>, i: nat)
    returns (rs': seq<string>, us': seq<string>, ms': seq<string>)
    requires i < |data|
    requires rs == JsArray.Distinct(ValuesTo(data, i, Regiao))
    requires us == JsArray.Distinct(ValuesTo(data, i, Uf))
    requires ms == JsArray.Distinct(ValuesTo(data, i, Municipio))
    ensures rs' == JsArray.Distinct(ValuesTo(data, i + 1, Regiao))
    ensures us' == JsArray.Distinct(ValuesTo(data, i + 1, Uf))
    ensures ms' == JsArray.Distinct(ValuesTo(data, i + 1, Municipio))
  {
    rs' := AddToSet(rs, data, i, Regiao);
    us' := AddToSet(us, data, i, Uf);
    ms' := AddToSet(ms, data, i, Municipio);
  }

  /** `if (item.f?.trim()) set.add(item.f.trim())` */
  method AddToSet(values: seq<string>, data: seq<Community>, i: nat, field: Field) returns (values': seq<string>)
    requires i < |data|
    requires values == JsArray.Distinct(ValuesTo(data, i, field))
    ensures values' == JsArray.Distinct(ValuesTo(data, i + 1, field))
  {
    var v := Trim(ValueOf(data[i], field));
    ValuesStep(data, i, field);
    if v != "" {
      DistinctSnoc(ValuesTo(data, i, field), v);
      if v !in values {
        values' := values + [v];
      } else {
        values' := values;
      }
    } else {
      assert ValuesTo(data, i, field) + [] == ValuesTo(data, i, field);
      values' := values;
    }
  }

  lemma DistinctSnoc(xs: seq<string>, v: string)
    ensures JsArray.Distinct(xs + [v]) ==
      if v in JsArray.Distinct(xs) then JsArray.Distinct(xs) else JsArray.Distinct(xs) + [v]
  {
    assert (xs + [v])[..|xs|] == xs;
  }

  /** `Array.from(set).sort()`: the default sort compares code units. */
  method SortStrings(values: seq<string>) returns (sorted: seq<string>)
    ensures sorted == JsArray.Sort(values, JsArray.CharCodes)
  {
    var a := new string[|values|](i requires 0 <= i < |values| => values[i]);
    assert a[..] == values;
    JsArray.SortInPlace(a, JsArray.CharCodes);
    sorted := a[..];
  }

  // ---------------------------------------------------------------------
  // Handlers

  /** `prev[type].filter(v => v !== value)` */
  function Remove(s: seq<string>, value: string): (r: seq<string>)
    ensures forall x :: x in r <==> x in s && x != value
    ensures |r| <= |s|
    ensures |s| == 1 ==> r == (if s[0] == value then [] else s)
    decreases |s|
  {
    if s == [] then []
    else
      assert s == s[..|s| - 1] + [s[|s| - 1]];
      Remove(s[..|s| - 1], value) + (if s[|s| - 1] != value then [s[|s| - 1]] else [])
  }

  /** `filter` keeps the order: filtering a concatenation filters each part.
      With the one-element case above, this determines `Remove` entirely. */
  lemma {:induction false} RemoveAppend(s: seq<string>, t: seq<string>, value: string)
    ensures Remove(s + t, value) == Remove(s, value) + Remove(t, value)
    decreases |t|
  {
    if t == [] {
      assert s + t == s;
    } else {
      var t' := t[..|t| - 1];
      RemoveAppend(s, t', value);
      assert (s + t)[..|s + t| - 1] == s + t';
      assert (s + t)[|s + t| - 1] == t[|t| - 1];
    }
  }

  lemma {:induction false} RemoveAbsentValue(s: seq<string>, value: string)
    requires value !in s
    ensures Remove(s, value) == s
    decreases |s|
  {
    if s != [] {
      RemoveAbsentValue(s[..|s| - 1], value);
      assert s == s[..|s| - 1] + [s[|s| - 1]];
    }
  }

  lemma {:induction false} RemoveKeepsNoDuplicates(s: seq<string>, value: string)
    requires JsArray.NoDuplicates(s)
    ensures JsArray.NoDuplicates(Remove(s, value))
    decreases |s|
  {
    if s != [] {
      var front := s[..|s| - 1];
      RemoveKeepsNoDuplicates(front, value);
      assert s[|s| - 1] !in front;
    }
  }

  /** `handleToggleOption`: an absent value is appended at the end and a
      present one removed (every occurrence); the other fields are
      unchanged. */
  function Toggle(f: FilterState, field: Field, value: string): (g: FilterState)
    ensures value !in Selected(f, field) ==> Selected(g, field) == Selected(f, field) + [value]
    ensures value in Selected(f, field) ==>
      && Selected(g, field) == Remove(Selected(f, field), value)
      && value !in Selected(g, field)
      && forall x :: x != value ==> (x in Selected(g, field) <==> x in Selected(f, field))
    ensures forall other :: other != field ==> Selected(g, other) == Selected(f, other)
    ensures g.vagasMin == f.vagasMin && g.vagasMax == f.vagasMax && g.ordenacao == f.ordenacao
  {
    var s := Selected(f, field);
    var t := if value in s then Remove(s, value) else s + [value];
    SelectedAfterWith(f, field, t);
    WithSelected(f, field, t)
  }

  /** A duplicate-free selection stays duplicate-free. */
  lemma ToggleKeepsNoDuplicates(f: FilterState, field: Field, value: string)
    requires JsArray.NoDuplicates(Selected(f, field))
    ensures JsArray.NoDuplicates(Selected(Toggle(f, field, value), field))
  {
    var s := Selected(f, field);
    if value in s {
      RemoveKeepsNoDuplicates(s, value);
    }
  }

  /** Toggling an absent value twice restores the state exactly. */
  lemma ToggleTwiceRestores(f: FilterState, field: Field, value: string)
    requires value !in Selected(f, field)
    ensures Toggle(Toggle(f, field, value), field, value) == f
  {
    var s := Selected(f, field);
    RemoveAbsentValue(s, value);
    assert Remove(s + [value], value) == Remove(s, value);
  }

  /** The sort buttons: clicking the active order clears it, clicking the
      other selects it. */
  function ClickOrder(f: FilterState, o: Order): (g: FilterState)
    requires o != NoOrder
    ensures g == f.(ordenacao := g.ordenacao)
    ensures f.ordenacao == o <==> g.ordenacao == NoOrder
    ensures f.ordenacao != o <==> g.ordenacao == o
  {
    f.(ordenacao := if f.ordenacao == o then NoOrder else o)
  }

  /** A second click on the same button undoes the first exactly when no
      other order was active. */
  lemma ClickOrderTwice(f: FilterState, o: Order)
    requires o != NoOrder
    ensures ClickOrder(ClickOrder(f, o), o) == f <==> (f.ordenacao == NoOrder || f.ordenacao == o)
  {
  }

  /** `handleReset`: whatever the state, the initial one. */
  function Reset(f: FilterState): (g: FilterState)
    ensures g == Initial
    ensures Selected(g, Regiao) == [] && Selected(g, Uf) == [] && Selected(g, Municipio) == []
  {
    FilterState([], [], [], "", "", NoOrder)
  }

  /** What `handleApply` does: hand the state to the parent, then close. */
  datatype Applied = Applied(passed: FilterState, closed: bool)

  function Apply(f: FilterState): (r: Applied)
    ensures r.passed == f && r.closed
  {
    Applied(f, true)
  }

  /** A dropdown header: opens its list, or closes it when it is open. */
  function ClickDropdown(open: Option<Field>, field: Field): (r: Option<Field>)
    ensures open == Some(field) <==> r == None
    ensures open != Some(field) <==> r == Some(field)
  {
    if open == Some(field) then None else Some(field)
  }
}
