/** The general-dashboard service (api/modules/dashboard/Geral/geral_service.py):
    maps spreadsheet rows to community records, and searches them by CNPJ. */
module GeralService {
  import opened Common
  import GraphApi
  import JsArray

  /** `comunidades_types`: one community, every field a string. */
  datatype Comunidade = Comunidade(
    cnpj: string,
    razaoSocial: string,
    nomeFantasia: string,
    contratoAno: string,
    processoSei: string,
    uf: string,
    regiao: string,
    municipio: string,
    endereco: string,
    telefone: string,
    email: string,
    vagasContratadas: string,
    adultoMasc: string,
    adultoFeminino: string,
    maes: string,
    previsaoRecursoAnual: string,
    previsaoRecursoMensal: string,
    dataInicialCt: string,
    dataVencimentoCt: string,
    dataCronologica: string,
    statusCertificacao: string,
    dtInicioCertificacaoAtual: string,
    dtFimCertificacaoAtual: string,
    tipoInstrumento: string,
    gnd: string,
    gnd3: string,
    gnd4: string,
    contrapartida: string,
    valorTotalGlobal: string,
    latitude: string,
    longitude: string)

  /** The number of fields, `cnpj` (0) to `longitude` (30). */
  const FieldCount := 31

  /** The field filled from column `k`. */
  function FieldAt(c: Comunidade, k: nat): string
    requires k < FieldCount
  {
    if k == 0 then c.cnpj
    else if k == 1 then c.razaoSocial
    else if k == 2 then c.nomeFantasia
    else if k == 3 then c.contratoAno
    else if k == 4 then c.processoSei
    else if k == 5 then c.uf
    else if k == 6 then c.regiao
    else if k == 7 then c.municipio
    else if k == 8 then c.endereco
    else if k == 9 then c.telefone
    else if k == 10 then c.email
    else if k == 11 then c.vagasContratadas
    else if k == 12 then c.adultoMasc
    else if k == 13 then c.adultoFeminino
    else if k == 14 then c.maes
    else if k == 15 then c.previsaoRecursoAnual
    else if k == 16 then c.previsaoRecursoMensal
    else if k == 17 then c.dataInicialCt
    else if k == 18 then c.dataVencimentoCt
    else if k == 19 then c.dataCronologica
    else if k == 20 then c.statusCertificacao
    else if k == 21 then c.dtInicioCertificacaoAtual
    else if k == 22 then c.dtFimCertificacaoAtual
    else if k == 23 then c.tipoInstrumento
    else if k == 24 then c.gnd
    else if k == 25 then c.gnd3
    else if k == 26 then c.gnd4
    else if k == 27 then c.contrapartida
    else if k == 28 then c.valorTotalGlobal
    else if k == 29 then c.latitude
    else c.longitude
  }

  /** `str(row[k]) if len(row) > k else ''` */
  function StrAt(row: Row, k: nat): string {
    if |row| > k then Str(row[k]) else ""
  }

  /** The record built from one row. */
  function ToComunidade(row: Row): (c: Comunidade)
    ensures forall k :: 0 <= k < FieldCount ==> FieldAt(c, k) == StrAt(row, k)
  {
    Comunidade(
      StrAt(row, 0),
      StrAt(row, 1),
      StrAt(row, 2),
      StrAt(row, 3),
      StrAt(row, 4),
      StrAt(row, 5),
      StrAt(row, 6),
      StrAt(row, 7),
      StrAt(row, 8),
      StrAt(row, 9),
      StrAt(row, 10),
      StrAt(row, 11),
      StrAt(row, 12),
      StrAt(row, 13),
      StrAt(row, 14),
      StrAt(row, 15),
      StrAt(row, 16),
      StrAt(row, 17),
      StrAt(row, 18),
      StrAt(row, 19),
      StrAt(row, 20),
      StrAt(row, 21),
      StrAt(row, 22),
      StrAt(row, 23),
      StrAt(row, 24),
      StrAt(row, 25),
      StrAt(row, 26),
      StrAt(row, 27),
      StrAt(row, 28),
      StrAt(row, 29),
      StrAt(row, 30))
  }

  /** `data.get('values', [])` */
  function RowsOf(data: Sheet): seq<Row> {
    if data.values.Some? then data.values.value else []
  }

  /** One record per row, in order. */
  function Formatted(rows: seq<Row>): (r: seq<Comunidade>)
    ensures |r| == |rows|
    ensures forall i :: 0 <= i < |rows| ==> r[i] == ToComunidade(rows[i])
  {
    seq(|rows|, i requires 0 <= i < |rows| => ToComunidade(rows[i]))
  }

  /** `get_data`, given how the range request ended. */
  method GetData(reply: GraphApi.GraphReply<Sheet>) returns (r: Result<seq<Comunidade>>)
    ensures !reply.Got? ==> r == Err(GraphApi.GraphFailure(reply))
    ensures reply.Got? ==> r == Ok(Formatted(RowsOf(reply.body)))
  {
    if !reply.Got? {
      return Err(GraphApi.GraphFailure(reply));
    }
    var rows := RowsOf(reply.body);
    var formatted: seq<Comunidade> := [];
    for i := 0 to |rows|
      invariant |formatted| == i
      invariant forall k :: 0 <= k < i ==> formatted[k] == ToComunidade(rows[k])
    {
      formatted := formatted + [ToComunidade(rows[i])];
    }
    assert formatted == Formatted(rows);
    r := Ok(formatted);
  }

  /** `get_filtered_data`: fetches the data and returns None; a failed fetch
      still raises. */
  method GetFilteredData(reply: GraphApi.GraphReply<Sheet>) returns (r: Result<Option<seq<Comunidade>>>)
    ensures r.Ok? <==> reply.Got?
    ensures r.Ok? ==> r.value == None
  {
    var data := GetData(reply);
    if data.Err? {
      return Err(data.error);
    }
    r := Ok(None);
  }

  // ---------------------------------------------------------------------
  // Search by CNPJ

  /** A matched record and its score. */
  datatype Scored = Scored(score: int, comunidade: Comunidade)

  function Min(a: int, b: int): int {
    if a <= b then a else b
  }

  /** The score of a record for a stripped CNPJ query: 100 when its digits
      equal the query's digits, 50 when they start with the first eight query
      digits, none otherwise (and none for an empty query). */
  function Score(cnpj: string, c: Comunidade): (s: Option<int>)
    ensures s.Some? ==> s.value == 100 || s.value == 50
    ensures s == Some(100) <==> cnpj != "" && Digits(cnpj) == Digits(c.cnpj)
    ensures s == Some(50) <==>
      (&& cnpj != "" && Digits(cnpj) != Digits(c.cnpj) && Digits(cnpj) != ""
       && IsPrefix(Digits(cnpj)[..Min(8, |Digits(cnpj)|)], Digits(c.cnpj)))
  {
    if cnpj == "" then None
    else
      var search := Digits(cnpj);
      var clean := Digits(c.cnpj);
      if search == clean then Some(100)
      else if search != "" && IsPrefix(search[..Min(8, |search|)], clean) then Some(50)
      else None
  }

  /** A query with no digit at all (such as "abc") matches exactly the
      records whose CNPJ has no digit either. */
  lemma DigitlessQueryMatchesDigitlessCnpj(cnpj: string, c: Comunidade)
    requires cnpj != "" && Digits(cnpj) == ""
    ensures Score(cnpj, c).Some? <==> Digits(c.cnpj) == ""
  {
  }

  /** The matched records with their scores, in data order. */
  function Matches(data: seq<Comunidade>, cnpj: string): seq<Scored>
    decreases |data|
  {
    if data == [] then []
    else
      var c := data[|data| - 1];
      Matches(data[..|data| - 1], cnpj) + (if Score(cnpj, c).Some? then [Scored(Score(cnpj, c).value, c)] else [])
  }

  /** Every match is a scored record of the data, and every record that
      scores is matched. */
  lemma {:induction false} MatchesSpec(data: seq<Comunidade>, cnpj: string)
    ensures forall p :: p in Matches(data, cnpj) ==> p.comunidade in data && Score(cnpj, p.comunidade) == Some(p.score)
    ensures forall c :: c in data && Score(cnpj, c).Some? ==> Scored(Score(cnpj, c).value, c) in Matches(data, cnpj)
    decreases |data|
  {
    if data != [] {
      MatchesSpec(data[..|data| - 1], cnpj);
      assert data == data[..|data| - 1] + [data[|data| - 1]];
    }
  }

  /** `sort(key=lambda x: x[0], reverse=True)`: descending score. */
  function ScoreKey(p: Scored): seq<int> {
    [-p.score]
  }

  function Project(s: seq<Scored>): (r: seq<Comunidade>)
    ensures |r| == |s|
    ensures forall i :: 0 <= i < |s| ==> r[i] == s[i].comunidade
  {
    seq(|s|, i requires 0 <= i < |s| => s[i].comunidade)
  }

  /** The filters of a query: `query.get('comunity', {})`. */
  type Query = map<string, map<string, string>>

  /** `filters.get(key, '').strip()` */
  function Filter(query: Query, key: string): string {
    var filters := if "comunity" in query then query["comunity"] else map[];
    Trim(if key in filters then filters[key] else "")
  }

  /** What `get_comunity_data` returns for the formatted data: all of it
      without filters; otherwise exactly the records that score against the
      CNPJ filter, best score first. */
  function CommunitySearch(data: seq<Comunidade>, query: Query): (r: seq<Comunidade>)
    ensures Filter(query, "cnpj") == "" && Filter(query, "name") == "" ==> r == data
    ensures Filter(query, "cnpj") != "" || Filter(query, "name") != "" ==>
      var cnpj := Filter(query, "cnpj");
      && (forall c :: c in r <==> c in data && Score(cnpj, c).Some?)
      && (forall i, j :: 0 <= i < j < |r| ==>
            Score(cnpj, r[i]).Some? && Score(cnpj, r[j]).Some? && Score(cnpj, r[i]).value >= Score(cnpj, r[j]).value)
  {
    var cnpj := Filter(query, "cnpj");
    var name := Filter(query, "name");
    if cnpj == "" && name == "" then data
    else
      RankedRecords(data, cnpj);
      Project(JsArray.Sort(Matches(data, cnpj), ScoreKey))
  }

  /** The ranked records are the scoring records of the data, by
      descending score. */
  lemma RankedRecords(data: seq<Comunidade>, cnpj: string)
    ensures var r := Project(JsArray.Sort(Matches(data, cnpj), ScoreKey));
      && (forall c :: c in r <==> c in data && Score(cnpj, c).Some?)
      && (forall i, j :: 0 <= i < j < |r| ==>
            Score(cnpj, r[i]).Some? && Score(cnpj, r[j]).Some? && Score(cnpj, r[i]).value >= Score(cnpj, r[j]).value)
  {
    var ms := Matches(data, cnpj);
    var sorted := JsArray.Sort(ms, ScoreKey);
    MatchesSpec(data, cnpj);
    JsArray.SortPermutes(ms, ScoreKey);
    ScoresDescend(ms);
    RankedMembers(data, cnpj, ms, sorted);
    RankedOrder(data, cnpj, ms, sorted);
  }

  lemma RankedMembers(data: seq<Comunidade>, cnpj: string, ms: seq<Scored>, sorted: seq<Scored>)
    requires forall p :: p in ms ==> p.comunidade in data && Score(cnpj, p.comunidade) == Some(p.score)
    requires forall c :: c in data && Score(cnpj, c).Some? ==> Scored(Score(cnpj, c).value, c) in ms
    requires multiset(sorted) == multiset(ms)
    ensures forall c :: c in Project(sorted) <==> c in data && Score(cnpj, c).Some?
  {
    var r := Project(sorted);
    forall c | c in r
      ensures c in data && Score(cnpj, c).Some?
    {
      var k :| 0 <= k < |r| && r[k] == c;
      assert sorted[k] in multiset(sorted);
    }
    forall c | c in data && Score(cnpj, c).Some?
      ensures c in r
    {
      var p := Scored(Score(cnpj, c).value, c);
      assert p in multiset(sorted);
      var k :| 0 <= k < |sorted| && sorted[k] == p;
      assert r[k] == c;
    }
  }

  lemma RankedOrder(data: seq<Comunidade>, cnpj: string, ms: seq<Scored>, sorted: seq<Scored>)
    requires forall p :: p in ms ==> p.comunidade in data && Score(cnpj, p.comunidade) == Some(p.score)
    requires multiset(sorted) == multiset(ms)
    requires forall i, j :: 0 <= i < j < |sorted| ==> sorted[i].score >= sorted[j].score
    ensures var r := Project(sorted);
      forall i, j :: 0 <= i < j < |r| ==>
        Score(cnpj, r[i]).Some? && Score(cnpj, r[j]).Some? && Score(cnpj, r[i]).value >= Score(cnpj, r[j]).value
  {
    forall i | 0 <= i < |sorted|
      ensures Score(cnpj, sorted[i].comunidade) == Some(sorted[i].score)
    {
      assert sorted[i] in multiset(sorted);
    }
  }

  /** The ranked matches: the same matches, each once, by descending score,
      records with equal scores in data order. */
  lemma RankedSpec(data: seq<Comunidade>, cnpj: string)
    ensures var ms := Matches(data, cnpj); var r := JsArray.Sort(ms, ScoreKey);
      && multiset(r) == multiset(ms)
      && (forall i, j :: 0 <= i < j < |r| ==> r[i].score >= r[j].score)
      && (forall k :: JsArray.WithKey(r, ScoreKey, k) == JsArray.WithKey(ms, ScoreKey, k))
  {
    var ms := Matches(data, cnpj);
    var r := JsArray.Sort(ms, ScoreKey);
    JsArray.SortPermutes(ms, ScoreKey);
    ScoresDescend(ms);
    forall k ensures JsArray.WithKey(r, ScoreKey, k) == JsArray.WithKey(ms, ScoreKey, k) {
      JsArray.SortIsStable(ms, ScoreKey, k);
    }
  }

  /** Sorting by the score key puts higher scores first. */
  lemma ScoresDescend(ms: seq<Scored>)
    ensures var r := JsArray.Sort(ms, ScoreKey);
      forall i, j :: 0 <= i < j < |r| ==> r[i].score >= r[j].score
  {
    var r := JsArray.Sort(ms, ScoreKey);
    JsArray.SortSorted(ms, ScoreKey);
    forall i, j | 0 <= i < j < |r| ensures r[i].score >= r[j].score {
      assert JsArray.KeyLeq(ScoreKey, r[i], r[j]);
      assert JsArray.LexLeq([-r[i].score], [-r[j].score]);
    }
  }

  /** A query with a name but no CNPJ matches nothing: the name check is empty. */
  lemma NameOnlyQueryFindsNothing(data: seq<Comunidade>, query: Query)
    requires Filter(query, "cnpj") == "" && Filter(query, "name") != ""
    ensures CommunitySearch(data, query) == []
  {
    NoCnpjNoMatches(data);
  }

  lemma {:induction false} NoCnpjNoMatches(data: seq<Comunidade>)
    ensures Matches(data, "") == []
    decreases |data|
  {
    if data != [] {
      NoCnpjNoMatches(data[..|data| - 1]);
    }
  }

  /** The search loop: score each record, keep the matches, sort them. */
  method RankMatches(data: seq<Comunidade>, cnpj: string, name: string) returns (out: seq<Comunidade>)
    ensures out == Project(JsArray.Sort(Matches(data, cnpj), ScoreKey))
  {
    var search := if cnpj != "" then Digits(cnpj) else "";
    var results: seq<Scored> := [];
    for i := 0 to |data|
      invariant results == Matches(data[..i], cnpj)
    {
      assert data[..i + 1][..i] == data[..i];
      var matched, score := ScoreRecord(data[i], cnpj, search);
      if matched {
        results := results + [Scored(score, data[i])];
      }
    }
    assert data[..|data|] == data;
    out := SortByScore(results);
  }

  /** The body of the search loop for one record: the CNPJ check (the name
      check does nothing). */
  method ScoreRecord(c: Comunidade, cnpj: string, search: string) returns (matched: bool, score: int)
    requires search == (if cnpj != "" then Digits(cnpj) else "")
    ensures matched <==> Score(cnpj, c).Some?
    ensures matched ==> score == Score(cnpj, c).value
  {
    score := 0;
    matched := false;
    if cnpj != "" {
      var clean := Digits(c.cnpj);
      if search == clean {
        score := score + 100;
        matched := true;
      } else if search != "" && IsPrefix(search[..Min(8, |search|)], clean) {
        score := score + 50;
        matched := true;
      }
    }
  }

  /** `results.sort(...)` on a list, then the records without their scores. */
  method SortByScore(results: seq<Scored>) returns (out: seq<Comunidade>)
    ensures out == Project(JsArray.Sort(results, ScoreKey))
  {
    var a := new Scored[|results|](k requires 0 <= k < |results| => results[k]);
    assert a[..] == results;
    JsArray.SortInPlace(a, ScoreKey);
    out := [];
    for i := 0 to a.Length
      invariant |out| == i
      invariant forall k :: 0 <= k < i ==> out[k] == a[k].comunidade
    {
      out := out + [a[i].comunidade];
    }
  }

  /** `get_comunity_data` */
  method GetComunityData(reply: GraphApi.GraphReply<Sheet>, query: Query) returns (r: Result<seq<Comunidade>>)
    ensures !reply.Got? ==> r == Err(GraphApi.GraphFailure(reply))
    ensures reply.Got? ==> r == Ok(CommunitySearch(Formatted(RowsOf(reply.body)), query))
    ensures reply.Got? && Filter(query, "cnpj") == "" && Filter(query, "name") == "" ==>
      r == Ok(Formatted(RowsOf(reply.body)))
  {
    var data := GetData(reply);
    if data.Err? {
      return data;
    }
    var cnpj := Filter(query, "cnpj");
    var name := Filter(query, "name");
    if cnpj == "" && name == "" {
      return data;
    }
    var ranked := RankMatches(data.value, cnpj, name);
    r := Ok(ranked);
  }
}
