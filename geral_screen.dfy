/** The general dashboard screen (app/screens/dashboard/Geral.tsx): the state
    and city option lists, the filtered and sorted records, the selection
    handlers, and the statistics cards. */
module GeralScreen {
  import opened Common
  import JsArray

  /** One record of the screen's data: a state id, a city and its vacancies. */
  datatype Point = Point(id: string, state: string, city: string, vagas: int)

  /** The sentinel the selects use for "no filter". */
  const All := "all"

  datatype SortOrder = Desc | Asc

  // ---------------------------------------------------------------------
  // Option lists

  /** The two columns the selects filter on. */
  datatype Column = StateColumn | CityColumn

  function Field(p: Point, column: Column): string {
    match column
    case StateColumn => p.state
    case CityColumn => p.city
  }

  /** `data.map(d => d.state)`, `data.map(d => d.city)` */
  function ColumnValues(data: seq<Point>, column: Column): (r: seq<string>)
    ensures |r| == |data|
    ensures forall i :: 0 <= i < |data| ==> r[i] == Field(data[i], column)
  {
    seq(|data|, i requires 0 <= i < |data| => Field(data[i], column))
  }

  /** `data.filter(d => selected === 'all' || d.state === selected)`, and the
      same on `d.city`. */
  function Where(data: seq<Point>, column: Column, selected: string): (r: seq<Point>)
    ensures forall p :: p in r <==> p in data && (selected == All || Field(p, column) == selected)
    decreases |data|
  {
    if data == [] then []
    else
      var last := data[|data| - 1];
      assert data == data[..|data| - 1] + [last];
      Where(data[..|data| - 1], column, selected) + (if selected == All || Field(last, column) == selected then [last] else [])
  }

  /** `Array.from(new Set(data.map(d => d.state))).sort()` */
  function StateOptions(data: seq<Point>): seq<string> {
    JsArray.SortedDistinct(ColumnValues(data, StateColumn))
  }

  /** The city options: of the selected state, or of all data. */
  function CityOptions(data: seq<Point>, selectedState: string): seq<string> {
    if selectedState == All then JsArray.SortedDistinct(ColumnValues(data, CityColumn))
    else JsArray.SortedDistinct(ColumnValues(Where(data, StateColumn, selectedState), CityColumn))
  }

  /** A value is in a mapped column iff some record carries it. */
  lemma ColumnValuesMember(data: seq<Point>, column: Column, v: string)
    ensures v in ColumnValues(data, column) <==> exists p :: p in data && Field(p, column) == v
  {
    if exists p :: p in data && Field(p, column) == v {
      var p :| p in data && Field(p, column) == v;
      var i :| 0 <= i < |data| && data[i] == p;
      assert ColumnValues(data, column)[i] == v;
    }
  }

  /** The state options are the distinct states, each once, sorted. */
  lemma StateOptionsSpec(data: seq<Point>)
    ensures var r := StateOptions(data);
      && (forall s :: s in r <==> exists p :: p in data && p.state == s)
      && JsArray.NoDuplicates(r) && JsArray.Sorted(r, JsArray.CharCodes)
  {
    JsArray.SortedDistinctSpec(ColumnValues(data, StateColumn));
    forall s ensures s in ColumnValues(data, StateColumn) <==> exists p :: p in data && p.state == s {
      ColumnValuesMember(data, StateColumn, s);
    }
  }

  /** The city options are the distinct cities of the selected state (of all
      records when it is 'all'), each once, sorted. */
  lemma CityOptionsSpec(data: seq<Point>, selectedState: string)
    ensures var r := CityOptions(data, selectedState);
      && (forall c :: c in r <==> exists p :: p in data && (selectedState == All || p.state == selectedState) && p.city == c)
      && JsArray.NoDuplicates(r) && JsArray.Sorted(r, JsArray.CharCodes)
  {
    var d := if selectedState == All then data else Where(data, StateColumn, selectedState);
    var xs := ColumnValues(d, CityColumn);
    JsArray.SortedDistinctSpec(xs);
    forall c ensures c in xs <==> exists p :: p in data && (selectedState == All || p.state == selectedState) && p.city == c {
      ColumnValuesMember(d, CityColumn, c);
      assert forall p :: p in d <==> p in data && (selectedState == All || p.state == selectedState);
    }
  }

  // ---------------------------------------------------------------------
  // filteredData

  /** The comparator of the vacancies sort, as a key. */
  function VagasKey(order: SortOrder): Point -> seq<int> {
    (p: Point) => if order == Desc then [-p.vagas] else [p.vagas]
  }

  /** The records matching both selects. */
  function Matching(data: seq<Point>, state: string, city: string): seq<Point> {
    Where(Where(data, StateColumn, state), CityColumn, city)
  }

  /** `filteredData` holds exactly the matching records, each as often as in
      the data, ordered by vacancies: non-increasing for 'desc',
      non-decreasing for 'asc'. */
  function FilteredData(data: seq<Point>, state: string, city: string, order: SortOrder): (r: seq<Point>)
    ensures multiset(r) == multiset(Matching(data, state, city))
    ensures forall p :: p in r <==> p in data && (state == All || p.state == state) && (city == All || p.city == city)
    ensures forall i, j :: 0 <= i < j < |r| ==> (if order == Desc then r[i].vagas >= r[j].vagas else r[i].vagas <= r[j].vagas)
  {
    var m := Matching(data, state, city);
    SortByVagas(m, order);
    JsArray.Sort(m, VagasKey(order))
  }

  /** Sorting by the vacancies key permutes the records into vacancy order. */
  lemma SortByVagas(m: seq<Point>, order: SortOrder)
    ensures var r := JsArray.Sort(m, VagasKey(order));
      && multiset(r) == multiset(m)
      && (forall p :: p in r <==> p in m)
      && (forall i, j :: 0 <= i < j < |r| ==> (if order == Desc then r[i].vagas >= r[j].vagas else r[i].vagas <= r[j].vagas))
  {
    var key := VagasKey(order);
    var r := JsArray.Sort(m, key);
    JsArray.SortPermutes(m, key);
    JsArray.SortSorted(m, key);
    forall p ensures p in r <==> p in m {
      assert p in r <==> p in multiset(r);
      assert p in m <==> p in multiset(m);
    }
    forall i, j | 0 <= i < j < |r|
      ensures if order == Desc then r[i].vagas >= r[j].vagas else r[i].vagas <= r[j].vagas
    {
      assert JsArray.KeyLeq(key, r[i], r[j]);
      assert JsArray.LexLeq(key(r[i]), key(r[j]));
    }
  }

  // ---------------------------------------------------------------------
  // Statistics

  /** `reduce((sum, d) => sum + w(d), 0)` */
  function SumOf(s: seq<Point>, w: Point -> int): int
    decreases |s|
  {
    if s == [] then 0 else SumOf(s[..|s| - 1], w) + w(s[|s| - 1])
  }

  function Vagas(p: Point): int {
    p.vagas
  }

  lemma {:induction false} SumAppend(s: seq<Point>, t: seq<Point>, w: Point -> int)
    ensures SumOf(s + t, w) == SumOf(s, w) + SumOf(t, w)
    decreases |t|
  {
    if t == [] {
      assert s + t == s;
    } else {
      SumAppend(s, t[..|t| - 1], w);
      assert (s + t)[..|s + t| - 1] == s + t[..|t| - 1];
    }
  }

  /** A sum depends only on the multiset of records summed. */
  lemma {:induction false} SumPermutation(s: seq<Point>, t: seq<Point>, w: Point -> int)
    requires multiset(s) == multiset(t)
    ensures SumOf(s, w) == SumOf(t, w)
    decreases |s|
  {
    if s == [] {
      assert |t| == |multiset(t)| == 0;
    } else {
      var front, x := s[..|s| - 1], s[|s| - 1];
      assert s == front + [x];
      assert x in multiset(t);
      var k :| 0 <= k < |t| && t[k] == x;
      MultisetRemoveAt(t, k);
      SumRemoveAt(t, k, w);
      var rest := t[..k] + t[k + 1..];
      assert multiset(front) == multiset(s) - multiset{x};
      SumPermutation(front, rest, w);
      SumAppend(front, [x], w);
      assert SumOf([x], w) == w(x) by {
        assert [x][..0] == [];
      }
    }
  }

  /** Taking out the element at `k` takes one copy of it out of the multiset. */
  lemma MultisetRemoveAt(t: seq<Point>, k: nat)
    requires k < |t|
    ensures multiset(t[..k] + t[k + 1..]) == multiset(t) - multiset{t[k]}
  {
    var x, a, b := t[k], t[..k], t[k + 1..];
    assert t == a + [x] + b;
    assert multiset(t) == multiset(a + [x]) + multiset(b);
    assert multiset(a + [x]) == multiset(a) + multiset{x};
  }

  /** ... and its weight out of the sum. */
  lemma SumRemoveAt(t: seq<Point>, k: nat, w: Point -> int)
    requires k < |t|
    ensures SumOf(t, w) == SumOf(t[..k] + t[k + 1..], w) + w(t[k])
  {
    SumSplit(t[..k], t[k], t[k + 1..], w);
    assert t == t[..k] + [t[k]] + t[k + 1..];
  }

  lemma SumSplit(a: seq<Point>, x: Point, b: seq<Point>, w: Point -> int)
    ensures SumOf(a + [x] + b, w) == SumOf(a + b, w) + w(x)
  {
    SumAppend(a + [x], b, w);
    SumAppend(a, [x], w);
    SumAppend(a, b, w);
    assert SumOf([x], w) == w(x) by {
      assert [x][..0] == [];
    }
  }





  /** `Math.round(sum / n)` for a positive count: round half up. */
  function RoundedMean(sum: int, n: nat): (a: int)
    requires n > 0
    ensures 2 * n * a - n <= 2 * sum < 2 * n * a + n
  {
    (2 * sum + n) / (2 * n)
  }

  /** The three cards. */
  datatype Cards = Cards(count: nat, total: int, average: int)

  function Statistics(filtered: seq<Point>): (c: Cards)
    ensures c.count == |filtered|
    ensures filtered == [] ==> c.average == 0
    ensures filtered != [] ==> 2 * |filtered| * c.average - |filtered| <= 2 * c.total < 2 * |filtered| * c.average + |filtered|
  {
    var total := SumOf(filtered, Vagas);
    Cards(|filtered|, total, if |filtered| > 0 then RoundedMean(total, |filtered|) else 0)
  }

  /** The count and total cards are those of the matching records, whatever
      the sort order. */
  lemma CardsIgnoreOrder(data: seq<Point>, state: string, city: string, order: SortOrder)
    ensures var c := Statistics(FilteredData(data, state, city, order));
      && c.count == |Matching(data, state, city)|
      && c.total == SumOf(Matching(data, state, city), Vagas)
  {
    var m := Matching(data, state, city);
    JsArray.SortPermutes(m, VagasKey(order));
    SumPermutation(JsArray.Sort(m, VagasKey(order)), m, Vagas);
  }

  /** The shading total of a map state: the vacancies of the filtered records
      of that state. */
  function StateTotal(filtered: seq<Point>, id: string): int {
    SumOf(Where(filtered, StateColumn, id), Vagas)
  }

  /** The vacancies of one state, counted record by record. */
  function StateWeight(id: string): Point -> int {
    (p: Point) => if p.state == id then p.vagas else 0
  }

  lemma {:induction false} StateTotalWeighted(s: seq<Point>, id: string)
    requires id != All
    ensures StateTotal(s, id) == SumOf(s, StateWeight(id))
    decreases |s|
  {
    if s != [] {
      StateTotalWeighted(s[..|s| - 1], id);
      var x := s[|s| - 1];
      if x.state == id {
        SumAppend(Where(s[..|s| - 1], StateColumn, id), [x], Vagas);
        assert [x][..0] == [];
        assert StateWeight(id)(x) == x.vagas;
      } else {
        assert Where(s, StateColumn, id) == Where(s[..|s| - 1], StateColumn, id) + [];
        assert Where(s[..|s| - 1], StateColumn, id) + [] == Where(s[..|s| - 1], StateColumn, id);
        assert StateWeight(id)(x) == 0;
        assert SumOf(s, StateWeight(id)) == SumOf(s[..|s| - 1], StateWeight(id));
      }
    }
  }

  lemma {:induction false} NoRecordOfState(s: seq<Point>, id: string)
    requires id != All
    requires forall p :: p in s ==> p.state != id
    ensures Where(s, StateColumn, id) == []
    decreases |s|
  {
    if s != [] {
      NoRecordOfState(s[..|s| - 1], id);
      assert s[|s| - 1] in s;
    }
  }

  /** A state's shading total does not depend on the sort order; a state with
      no matching record has total 0. */
  lemma StateTotalSpec(data: seq<Point>, state: string, city: string, order: SortOrder, id: string)
    requires id != All
    ensures StateTotal(FilteredData(data, state, city, order), id) == SumOf(Matching(data, state, city), StateWeight(id))
    ensures (forall p :: p in Matching(data, state, city) ==> p.state != id) ==>
            StateTotal(FilteredData(data, state, city, order), id) == 0
  {
    var m := Matching(data, state, city);
    var r := FilteredData(data, state, city, order);
    JsArray.SortPermutes(m, VagasKey(order));
    StateTotalWeighted(r, id);
    SumPermutation(r, m, StateWeight(id));
    if forall p :: p in m ==> p.state != id {
      forall p | p in r ensures p.state != id {
        assert p in multiset(r);
      }
      NoRecordOfState(r, id);
    }
  }

  // ---------------------------------------------------------------------
  // Selection

  /** The screen's selection state. */
  class Selection {
    var selectedState: string
    var selectedCity: string
    var sortOrder: SortOrder

    /** The city select is disabled while the state is 'all', so a city is
        chosen only under a chosen state. */
    predicate Valid()
      reads this
    {
      selectedCity != All ==> selectedState != All
    }

    constructor ()
      ensures Valid()
      ensures selectedState == All && selectedCity == All && sortOrder == Desc
    {
      selectedState, selectedCity, sortOrder := All, All, Desc;
    }

    /** A click on a map state: select it, or back to 'all' when it is the
        selected one; the city always returns to 'all'. */
    method ClickState(id: string)
      modifies this
      ensures Valid()
      ensures selectedState == (if old(selectedState) == id then All else id)
      ensures selectedCity == All && sortOrder == old(sortOrder)
    {
      selectedState := if selectedState == id then All else id;
      selectedCity := All;
    }

    /** The state select. */
    method SelectState(value: string)
      modifies this
      ensures Valid()
      ensures selectedState == value && selectedCity == All && sortOrder == old(sortOrder)
    {
      selectedState := value;
      selectedCity := All;
    }

    /** The city select, enabled only when a state is chosen. */
    method SelectCity(value: string)
      requires Valid() && selectedState != All
      modifies this
      ensures Valid()
      ensures selectedCity == value && selectedState == old(selectedState) && sortOrder == old(sortOrder)
    {
      selectedCity := value;
    }

    /** The order select. */
    method SelectOrder(order: SortOrder)
      requires Valid()
      modifies this
      ensures Valid()
      ensures sortOrder == order && selectedState == old(selectedState) && selectedCity == old(selectedCity)
    {
      sortOrder := order;
    }
  }
}
