/** The community map (src/app/components/data/Map.tsx): which records get a
    marker, and what each marker shows. */
module MapView {
  import opened Common

  /** The fields a marker reads; a missing field reads as "". */
  datatype Community = Community(
    cnpj: string, razaoSocial: string, nomeFantasia: string,
    latitude: string, longitude: string,
    municipio: string, uf: string, endereco: string, telefone: string, email: string,
    vagasContratadas: string, adultoMasc: string, adultoFeminino: string)

  /** What `parseFloat` gives: NaN, or a number. */
  datatype Parsed = NaN | Num(value: real)

  /** `parseFloat`, kept abstract. */
  type Parser = string -> Parsed

  /** `!isNaN(parseFloat(latitude)) && !isNaN(parseFloat(longitude))` */
  predicate HasCoordinates(c: Community, parse: Parser) {
    parse(c.latitude).Num? && parse(c.longitude).Num?
  }

  /** `validData`: the records with both coordinates, in order. */
  function ValidData(data: seq<Community>, parse: Parser): (r: seq<Community>)
    ensures |r| <= |data|
    decreases |data|
  {
    if data == [] then []
    else
      var last := data[|data| - 1];
      ValidData(data[..|data| - 1], parse) + (if HasCoordinates(last, parse) then [last] else [])
  }

  /** A record is kept exactly when it has both coordinates. */
  lemma {:induction false} ValidDataMember(data: seq<Community>, c: Community, parse: Parser)
    ensures c in ValidData(data, parse) <==> c in data && HasCoordinates(c, parse)
    decreases |data|
  {
    if data != [] {
      ValidDataMember(data[..|data| - 1], c, parse);
      InLast(data, c);
    }
  }

  /** The filter keeps the order: it distributes over concatenation. */
  lemma {:induction false} ValidDataAppend(a: seq<Community>, b: seq<Community>, parse: Parser)
    ensures ValidData(a + b, parse) == ValidData(a, parse) + ValidData(b, parse)
    decreases |b|
  {
    if b == [] {
      assert a + b == a;
    } else {
      var front, last := b[..|b| - 1], b[|b| - 1];
      ValidDataAppend(a, front, parse);
      assert (a + b)[..|a + b| - 1] == a + front;
      assert (a + b)[|a + b| - 1] == last;
    }
  }

  const MarkerLimit := 10000

  /** `validData.slice(0, 10000)` */
  function LimitedData(data: seq<Community>, parse: Parser): (r: seq<Community>)
    ensures var v := ValidData(data, parse);
      && |r| == (if |v| < MarkerLimit then |v| else MarkerLimit)
      && r == v[..|r|]
  {
    var v := ValidData(data, parse);
    if |v| <= MarkerLimit then v else v[..MarkerLimit]
  }

  /** `clean`: the text without its blanks at either end, "" when nothing
      but blanks. */
  function Clean(v: string): (r: string)
    ensures exists a, b ::
      && 0 <= a <= b <= |v| && r == v[a..b]
      && (forall i :: 0 <= i < a ==> IsSpace(v[i]))
      && (forall i :: b <= i < |v| ==> IsSpace(v[i]))
    ensures r == "" <==> forall i :: 0 <= i < |v| ==> IsSpace(v[i])
    ensures r != "" ==> !IsSpace(r[0]) && !IsSpace(r[|r| - 1])
  {
    Trim(v)
  }

  /** `a || b` on strings. */
  function Or(a: string, b: string): string {
    if a != "" then a else b
  }

  /** What a marker shows. */
  datatype Marker = Marker(
    key: string, lat: real, lng: real, nome: string,
    municipio: string, uf: string, endereco: string, telefone: string, email: string,
    vagas: string, adultoMasc: string, adultoFem: string, detailed: bool)

  /** `!lat || !lng || isNaN(lat) || isNaN(lng)`: no marker. */
  predicate Skipped(c: Community, parse: Parser) {
    parse(c.latitude) == NaN || parse(c.longitude) == NaN
    || parse(c.latitude) == Num(0.0) || parse(c.longitude) == Num(0.0)
  }

  /** `clean(x) || fallback` shows `shown`: the cleaned text when it is not
      empty, the fallback otherwise. */
  predicate FallsBack(x: string, fallback: string, shown: string) {
    (Clean(x) != "" ==> shown == Clean(x)) && (Clean(x) == "" ==> shown == fallback)
  }

  /** The marker of the record at `index` of `limitedData`. */
  function MarkerOf(c: Community, index: nat, parse: Parser, zoom: int): (m: Marker)
    requires !Skipped(c, parse)
    ensures m.lat == parse(c.latitude).value != 0.0 && m.lng == parse(c.longitude).value != 0.0
    ensures m.detailed <==> zoom > 5
    // the React key: the CNPJ as given, else the position
    ensures c.cnpj != "" ==> m.key == c.cnpj
    ensures c.cnpj == "" ==> m.key == "marker-" + NatToDecimal(index)
    // each text field: its cleaned value, else its placeholder
    ensures FallsBack(c.municipio, "—", m.municipio) && FallsBack(c.uf, "—", m.uf)
    ensures FallsBack(c.endereco, "Não informado", m.endereco)
    ensures FallsBack(c.telefone, "Não informado", m.telefone)
    ensures FallsBack(c.email, "Não informado", m.email)
    ensures FallsBack(c.vagasContratadas, "0", m.vagas)
    ensures FallsBack(c.adultoMasc, "0", m.adultoMasc) && FallsBack(c.adultoFeminino, "0", m.adultoFem)
  {
    Marker(
      Or(c.cnpj, "marker-" + NatToDecimal(index)),
      parse(c.latitude).value, parse(c.longitude).value,
      Or(Or(Clean(c.nomeFantasia), Clean(c.razaoSocial)), "Não informado"),
      Or(Clean(c.municipio), "—"), Or(Clean(c.uf), "—"),
      Or(Clean(c.endereco), "Não informado"), Or(Clean(c.telefone), "Não informado"),
      Or(Clean(c.email), "Não informado"),
      Or(Clean(c.vagasContratadas), "0"), Or(Clean(c.adultoMasc), "0"), Or(Clean(c.adultoFeminino), "0"),
      zoom > 5)
  }

  /** The indices, among the first `n` records, of those that get a
      marker (`data.map` returns null for the others). */
  function PlacedIndices(data: seq<Community>, n: nat, parse: Parser): (r: seq<nat>)
    requires n <= |data|
    ensures |r| <= n
    ensures forall k :: 0 <= k < |r| ==> r[k] < n && !Skipped(data[r[k]], parse)
    ensures forall i :: 0 <= i < n && !Skipped(data[i], parse) ==> i in r
    ensures forall k, l :: 0 <= k < l < |r| ==> r[k] < r[l]
  {
    if n == 0 then []
    else PlacedIndices(data, n - 1, parse) + (if Skipped(data[n - 1], parse) then [] else [n - 1])
  }

  /** The markers rendered for `limitedData`, in order. */
  function Markers(data: seq<Community>, parse: Parser, zoom: int): (r: seq<Marker>)
    ensures var idx := PlacedIndices(data, |data|, parse);
      && |r| == |idx|
      && forall k :: 0 <= k < |r| ==> r[k] == MarkerOf(data[idx[k]], idx[k], parse, zoom)
  {
    var idx := PlacedIndices(data, |data|, parse);
    seq(|idx|, k requires 0 <= k < |idx| => MarkerOf(data[idx[k]], idx[k], parse, zoom))
  }

  /** What the component renders. */
  datatype View = Placeholder | MapOf(markers: seq<Marker>)

  /** The component for `dataReq` (absent: None) and the current zoom. */
  function Render(dataReq: Option<seq<Community>>, parse: Parser, zoom: int): (v: View)
    ensures v.Placeholder? <==> dataReq.None? || dataReq.value == []
  {
    if dataReq.None? || dataReq.value == [] then Placeholder
    else MapOf(Markers(LimitedData(dataReq.value, parse), parse, zoom))
  }

  /** A marker shown is at a non-zero position, with the popup detailed
      exactly when zoomed in past 5. */
  predicate Shown(m: Marker, zoom: int) {
    m.lat != 0.0 && m.lng != 0.0 && (m.detailed <==> zoom > 5)
  }

  /** Every marker is of a record with non-zero coordinates, one per such
      record of `limitedData`, and each is shown as `Shown` says. */
  lemma MarkersSpec(data: seq<Community>, parse: Parser, zoom: int)
    ensures var r := Markers(data, parse, zoom);
      && |r| <= |data|
      && (forall m :: m in r ==> Shown(m, zoom))
      && (forall i :: 0 <= i < |data| && !Skipped(data[i], parse) ==>
            MarkerOf(data[i], i, parse, zoom) in r)
  {
    var r := Markers(data, parse, zoom);
    var idx := PlacedIndices(data, |data|, parse);
    forall m | m in r ensures Shown(m, zoom) {
      var k :| 0 <= k < |r| && r[k] == m;
      assert m == MarkerOf(data[idx[k]], idx[k], parse, zoom);
    }
    forall i | 0 <= i < |data| && !Skipped(data[i], parse) ensures MarkerOf(data[i], i, parse, zoom) in r {
      var k :| 0 <= k < |idx| && idx[k] == i;
      assert r[k] == MarkerOf(data[i], i, parse, zoom);
    }
  }

  /** The map never shows more than 10000 markers, and never more than the
      records that have valid coordinates. */
  lemma MarkerCountBound(dataReq: seq<Community>, parse: Parser, zoom: int)
    requires dataReq != []
    ensures |Render(Some(dataReq), parse, zoom).markers| <= MarkerLimit
    ensures |Render(Some(dataReq), parse, zoom).markers| <= |ValidData(dataReq, parse)|
  {
    var limited := LimitedData(dataReq, parse);
    MarkersSpec(limited, parse, zoom);
  }

  /** The title falls back from the trade name to the company name to
      "Não informado"; the counts fall back to "0". */
  lemma MarkerFallbacks(c: Community, index: nat, parse: Parser, zoom: int)
    requires !Skipped(c, parse)
    ensures var m := MarkerOf(c, index, parse, zoom);
      && (Trim(c.nomeFantasia) != "" ==> m.nome == Trim(c.nomeFantasia))
      && (Trim(c.nomeFantasia) == "" && Trim(c.razaoSocial) != "" ==> m.nome == Trim(c.razaoSocial))
      && (Trim(c.nomeFantasia) == "" && Trim(c.razaoSocial) == "" ==> m.nome == "Não informado")
      && m.nome != ""
      && (Trim(c.vagasContratadas) == "" ==> m.vagas == "0")
      && (Trim(c.adultoMasc) == "" ==> m.adultoMasc == "0")
      && (Trim(c.adultoFeminino) == "" ==> m.adultoFem == "0")
  {
  }

  /** Two records without a CNPJ get different marker keys. */
  lemma IndexKeysDistinct(c: Community, d: Community, i: nat, j: nat, parse: Parser, zoom: int)
    requires !Skipped(c, parse) && !Skipped(d, parse)
    requires c.cnpj == "" && d.cnpj == "" && i != j
    ensures MarkerOf(c, i, parse, zoom).key != MarkerOf(d, j, parse, zoom).key
  {
    // the two numbers print differently, and the common prefix keeps them apart
    var p, a, b := "marker-", NatToDecimal(i), NatToDecimal(j);
    assert DecimalValue(a) != DecimalValue(b);
    assert (p + a)[|p|..] == a && (p + b)[|p|..] == b;
  }
}
