/** The "geral" sector service (backend/api/api/modules/setores/geral.py):
    reads the general spreadsheet range through Microsoft Graph, with the
    token cache in front, and turns its rows into records keyed by header. */
module SetoresGeral {
  import opened Common
  import TokenCache

  // ---------------------------------------------------------------------
  // Fetching with the cache in front

  /** The cache key the spreadsheet is stored under for a token. */
  function CacheKey(token: string): (k: string)
    ensures IsPrefix("geral_data_", k) && k[|"geral_data_"|..] == token
  {
    "geral_data_" + token
  }

  /** The HTTPException a failed Graph request turns into: 401, 403 and 404
      keep their status with a fixed text, any other status passes through,
      and a connection or decoding failure is a 500. */
  function FetchFailure(reply: Reply<Sheet>): (f: Failure)
    requires !reply.Success?
    ensures f.HttpException?
    ensures reply.StatusError? ==> f.status == reply.status
    ensures !reply.StatusError? ==> f.status == 500
  {
    match reply
    case StatusError(s, reason) =>
      if s == 401 then HttpException(401, "Token inválido ou expirado")
      else if s == 403 then HttpException(403, "Permissões insuficientes")
      else if s == 404 then HttpException(404, "Recurso não encontrado")
      else HttpException(s, "Erro na requisição: " + reason)
    case ConnectionError(reason) => HttpException(500, "Erro de conexão: " + reason)
    case InvalidJson => HttpException(500, "Erro ao processar resposta da API")
  }

  /** What `get_geral_data_from_token` returns and the cache it leaves, given
      the cache it starts from, the clock at the check (`now`) and at the
      store (`storedAt`), and the reply Graph would give. */
  function Fetch(entries: map<string, TokenCache.Entry>, token: string, now: real,
                 reply: Reply<Sheet>, storedAt: real): (r: (Result<Sheet>, map<string, TokenCache.Entry>))
    // a fresh entry answers without Graph
    ensures var key := CacheKey(token);
      key in entries && TokenCache.IsFresh(entries[key], now) ==> r.1 == entries
    // data returned is data cached under the token's key
    ensures r.0.Ok? ==> var key := CacheKey(token);
      key in r.1 && r.1[key].DataEntry? && r.1[key].data == r.0.value
    // only a successful fetch changes the cache, and only at the token's key
    ensures r.0.Err? ==> r.1 == entries
    ensures forall k :: k != CacheKey(token) ==> (k in r.1 <==> k in entries)
    ensures forall k :: k != CacheKey(token) && k in r.1 ==> r.1[k] == entries[k]
    ensures r.1 != entries ==> r.1[CacheKey(token)] == TokenCache.DataEntry(r.0.value, storedAt)
    // the outcome of each case: a fresh data entry is served, a fresh entry
    // of the other kind fails; on a miss an empty body is a 404, any other
    // success is returned and stored, a failure is mapped
    ensures var key := CacheKey(token);
      key in entries && TokenCache.IsFresh(entries[key], now) ==>
        if entries[key].DataEntry? then r.0 == Ok(entries[key].data) else r.0.Err?
    ensures var key := CacheKey(token);
      (key !in entries || !TokenCache.IsFresh(entries[key], now)) && reply.Success? ==>
        if reply.body.IsEmpty() then r == (Err(HttpException(404, "Dados não retornados")), entries)
        else r == (Ok(reply.body), entries[key := TokenCache.DataEntry(reply.body, storedAt)])
    ensures var key := CacheKey(token);
      (key !in entries || !TokenCache.IsFresh(entries[key], now)) && !reply.Success? ==>
        r == (Err(FetchFailure(reply)), entries)
  {
    var key := CacheKey(token);
    if key in entries && TokenCache.IsFresh(entries[key], now) then
      // a fresh entry stored by the user service under the same key has no
      // 'data' field: the KeyError escapes the service
      (if entries[key].DataEntry? then Ok(entries[key].data) else Err(Exception("'data'")), entries)
    else match reply
      case Success(body) =>
        if body.IsEmpty() then (Err(HttpException(404, "Dados não retornados")), entries)
        else (Ok(body), entries[key := TokenCache.DataEntry(body, storedAt)])
      case _ => (Err(FetchFailure(reply)), entries)
  }

  /** Once a token's range has been fetched from Graph (no entry, or a
      stale one), asking again within the timeout returns the same data
      from the cache, whatever Graph would answer. */
  lemma {:induction false} RefetchWithinTimeoutHitsCache(
    entries: map<string, TokenCache.Entry>, token: string, now: real, reply: Reply<Sheet>, storedAt: real,
    later: real, reply2: Reply<Sheet>, storedAt2: real)
    requires CacheKey(token) !in entries || !TokenCache.IsFresh(entries[CacheKey(token)], now)
    requires Fetch(entries, token, now, reply, storedAt).0.Ok?
    requires later - storedAt < TokenCache.CACHE_TIMEOUT
    ensures var (r1, cache1) := Fetch(entries, token, now, reply, storedAt);
      Fetch(cache1, token, later, reply2, storedAt2) == (r1, cache1)
  {
    var (r1, cache1) := Fetch(entries, token, now, reply, storedAt);
    assert cache1[CacheKey(token)] == TokenCache.DataEntry(reply.body, storedAt);
  }

  /** The cache only ever holds non-empty spreadsheets. */
  ghost predicate DataNonEmpty(entries: map<string, TokenCache.Entry>) {
    forall k :: k in entries && entries[k].DataEntry? ==> !entries[k].data.IsEmpty()
  }

  /** Fetching keeps the cache free of empty spreadsheets, and so never
      returns `{}`, from the cache or from Graph. */
  lemma FetchNeverReturnsEmpty(entries: map<string, TokenCache.Entry>, token: string, now: real,
                               reply: Reply<Sheet>, storedAt: real)
    requires DataNonEmpty(entries)
    ensures var (r, after) := Fetch(entries, token, now, reply, storedAt);
      DataNonEmpty(after) && (r.Ok? ==> !r.value.IsEmpty())
  {
  }

  /** `get_geral_data_from_token` */
  method GetGeralDataFromToken(cache: TokenCache.Cache, token: string, now: real,
                               reply: Reply<Sheet>, storedAt: real) returns (r: Result<Sheet>)
    modifies cache
    ensures (r, cache.entries) == Fetch(old(cache.entries), token, now, reply, storedAt)
    ensures r.Err? ==> cache.entries == old(cache.entries)
  {
    var key := CacheKey(token);
    if key in cache.entries {
      var cached := cache.entries[key];
      if now - cached.timestamp < TokenCache.CACHE_TIMEOUT {
        if cached.DataEntry? {
          r := Ok(cached.data);
        } else {
          r := Err(Exception("'data'"));
        }
        return;
      }
    }
    match reply {
      case Success(data) =>
        if data.IsEmpty() {
          r := Err(HttpException(404, "Dados não retornados"));
          return;
        }
        cache.entries := cache.entries[key := TokenCache.DataEntry(data, storedAt)];
        r := Ok(data);
      case _ =>
        r := Err(FetchFailure(reply));
    }
  }

  // ---------------------------------------------------------------------
  // Rows to records

  /** A value of a built record: None, a cell copied from the row, or the row id. */
  datatype Value = NoneValue | CellValue(cell: Cell) | IdValue(id: nat)

  /** A record: the header cell of each column mapped to that column's value,
      plus the key "id". */
  type Record = map<Cell, Value>

  const IdKey: Cell := Text("id")

  /** The value stored for column `c` of a row: None past the row's end and
      for an empty text cell, the cell itself otherwise. */
  function ColumnValue(row: Row, c: nat): Value {
    if c < |row| && row[c] != Text("") then CellValue(row[c]) else NoneValue
  }

  /** The object the header loop builds: one key per header, a later column
      with the same header overwriting an earlier one. */
  function RowObject(headers: Row, row: Row): Record
    decreases |headers|
  {
    if headers == [] then map[]
    else RowObject(headers[..|headers| - 1], row)[headers[|headers| - 1] := ColumnValue(row, |headers| - 1)]
  }

  /** The record for data row `id`. */
  function BuildRecord(headers: Row, row: Row, id: nat): Record {
    RowObject(headers, row)[IdKey := IdValue(id)]
  }

  /** Index `j` is the last column with its header. */
  predicate LastOccurrence(headers: Row, j: nat)
    requires j < |headers|
  {
    forall j2 :: j < j2 < |headers| ==> headers[j2] != headers[j]
  }

  lemma {:induction false} RowObjectSpec(headers: Row, row: Row)
    ensures forall k :: k in RowObject(headers, row) <==> k in headers
    ensures forall j :: 0 <= j < |headers| && LastOccurrence(headers, j) ==>
      RowObject(headers, row)[headers[j]] == ColumnValue(row, j)
  {
    if headers != [] {
      var init := headers[..|headers| - 1];
      RowObjectSpec(init, row);
      forall k ensures k in RowObject(headers, row) <==> k in headers {
        assert headers == init + [headers[|headers| - 1]];
      }
      forall j | 0 <= j < |headers| && LastOccurrence(headers, j)
        ensures RowObject(headers, row)[headers[j]] == ColumnValue(row, j)
      {
        if j < |headers| - 1 {
          assert LastOccurrence(init, j);
          assert init[j] == headers[j];
        }
      }
    }
  }

  /** Each record has exactly the headers and "id" as keys; "id" holds the row
      index; every other header holds the value of the last column carrying it. */
  lemma BuildRecordSpec(headers: Row, row: Row, id: nat)
    ensures forall k :: k in BuildRecord(headers, row, id) <==> k in headers || k == IdKey
    ensures BuildRecord(headers, row, id)[IdKey] == IdValue(id)
    ensures forall j :: 0 <= j < |headers| && LastOccurrence(headers, j) && headers[j] != IdKey ==>
      BuildRecord(headers, row, id)[headers[j]] == ColumnValue(row, j)
  {
    RowObjectSpec(headers, row);
  }

  /** The indices of the non-empty rows among rows 1 .. n-1 (row 0 holds the headers). */
  function DataRowIds(values: seq<Row>, n: nat): (ids: seq<nat>)
    requires n <= |values|
    ensures forall i :: 0 <= i < |ids| ==> 1 <= ids[i] < n
  {
    if n <= 1 then []
    else DataRowIds(values, n - 1) + (if values[n - 1] != [] then [n - 1] else [])
  }

  /** The ids are increasing and name exactly the non-empty data rows. */
  lemma {:induction false} DataRowIdsSpec(values: seq<Row>, n: nat)
    requires n <= |values|
    ensures var ids := DataRowIds(values, n);
      && (forall i, j :: 0 <= i < j < |ids| ==> ids[i] < ids[j])
      && (forall k :: k in ids <==> 1 <= k < n && values[k] != [])
  {
    if n > 1 {
      DataRowIdsSpec(values, n - 1);
    }
  }

  /** The records for the given rows, in order. */
  function Records(headers: Row, values: seq<Row>, ids: seq<nat>): seq<Record>
    requires forall i :: 0 <= i < |ids| ==> ids[i] < |values|
  {
    if ids == [] then
      []
    else
      Records(headers, values, ids[..|ids| - 1])
      + [BuildRecord(headers, values[ids[|ids| - 1]], ids[|ids| - 1])]
  }

  lemma {:induction false} RecordsAt(headers: Row, values: seq<Row>, ids: seq<nat>)
    requires forall i :: 0 <= i < |ids| ==> ids[i] < |values|
    ensures |Records(headers, values, ids)| == |ids|
    ensures forall i :: 0 <= i < |ids| ==>
      Records(headers, values, ids)[i] == BuildRecord(headers, values[ids[i]], ids[i])
  {
    if ids != [] {
      RecordsAt(headers, values, ids[..|ids| - 1]);
    }
  }

  /** What `transform_to_json_format` returns: nothing without at least a
      header row and one more row; otherwise one record per non-empty data
      row, in row order, built from the header row and tagged with the
      row's index. */
  function Transform(data: Sheet): (r: seq<Record>)
    ensures data.values.None? || |data.values.value| < 2 ==> r == []
    ensures data.values.Some? && |data.values.value| >= 2 ==>
      var values := data.values.value; var ids := DataRowIds(values, |values|);
      && |r| == |ids|
      && (forall i :: 0 <= i < |ids| ==> r[i] == BuildRecord(values[0], values[ids[i]], ids[i]))
      && (forall i, j :: 0 <= i < j < |ids| ==> ids[i] < ids[j])
      && (forall k :: k in ids <==> 1 <= k < |values| && values[k] != [])
  {
    match data.values
    case None => []
    case Some(values) =>
      if |values| < 2 then []
      else
        var ids := DataRowIds(values, |values|);
        RecordsAt(values[0], values, ids);
        DataRowIdsSpec(values, |values|);
        Records(values[0], values, ids)
  }

  /** Record ids increase strictly along the result. */
  lemma TransformIdsIncrease(data: Sheet)
    ensures forall i, j :: 0 <= i < j < |Transform(data)| ==>
      && IdKey in Transform(data)[i] && IdKey in Transform(data)[j]
      && Transform(data)[i][IdKey].IdValue? && Transform(data)[j][IdKey].IdValue?
      && Transform(data)[i][IdKey].id < Transform(data)[j][IdKey].id
  {
    if data.values.Some? && |data.values.value| >= 2 {
      var values := data.values.value;
      var ids := DataRowIds(values, |values|);
      assert |Transform(data)| == |ids|;
      forall i | 0 <= i < |ids|
        ensures IdKey in Transform(data)[i] && Transform(data)[i][IdKey] == IdValue(ids[i])
      {
        BuildRecordSpec(values[0], values[ids[i]], ids[i]);
      }
      forall i, j | 0 <= i < j < |Transform(data)|
        ensures && IdKey in Transform(data)[i] && IdKey in Transform(data)[j]
                && Transform(data)[i][IdKey].IdValue? && Transform(data)[j][IdKey].IdValue?
                && Transform(data)[i][IdKey].id < Transform(data)[j][IdKey].id
      {
        assert ids[i] < ids[j];
      }
    } else {
      assert Transform(data) == [];
    }
  }

  /** `transform_to_json_format` */
  method TransformToJsonFormat(data: Sheet) returns (result: seq<Record>)
    ensures result == Transform(data)
    ensures data.values.None? || |data.values.value| < 2 ==> result == []
  {
    result := [];
    if data.values.None? || |data.values.value| < 2 {
      return;
    }
    var values := data.values.value;
    var headers := values[0];
    var rowIndex := 1;
    while rowIndex < |values|
      invariant 1 <= rowIndex <= |values|
      invariant result == Records(headers, values, DataRowIds(values, rowIndex))
    {
      var row := values[rowIndex];
      ghost var ids := DataRowIds(values, rowIndex);
      if row != [] {
        var obj := BuildRowObject(headers, row, rowIndex);
        assert DataRowIds(values, rowIndex + 1) == ids + [rowIndex];
        assert (ids + [rowIndex])[..|ids|] == ids;
        result := result + [obj];
      } else {
        assert DataRowIds(values, rowIndex + 1) == ids + [];
        assert ids + [] == ids;
      }
      rowIndex := rowIndex + 1;
    }
  }

  /** The header loop of `transform_to_json_format` (repeated in the filter
      route): one entry per header, then the id. */
  method BuildRowObject(headers: Row, row: Row, id: nat) returns (obj: Record)
    ensures obj == BuildRecord(headers, row, id)
  {
    obj := map[];
    var c := 0;
    while c < |headers|
      invariant 0 <= c <= |headers|
      invariant obj == RowObject(headers[..c], row)
    {
      assert headers[..c + 1][..c] == headers[..c];
      if c < |row| {
        obj := obj[headers[c] := if row[c] != Text("") then CellValue(row[c]) else NoneValue];
      } else {
        obj := obj[headers[c] := NoneValue];
      }
      c := c + 1;
    }
    assert headers[..|headers|] == headers;
    obj := obj[IdKey := IdValue(id)];
  }

  /** The body of the general-data endpoint: a status and the records. */
  datatype Envelope = Envelope(status: string, data: seq<Record>)

  /** `get_filtered_geral_data`: the fetched spreadsheet, transformed; a
      failed fetch propagates. */
  method GetFilteredGeralData(cache: TokenCache.Cache, token: string, now: real,
                              reply: Reply<Sheet>, storedAt: real) returns (r: Result<Envelope>)
    modifies cache
    ensures var (fetched, after) := Fetch(old(cache.entries), token, now, reply, storedAt);
      && cache.entries == after
      && (fetched.Ok? ==> r == Ok(Envelope("success", Transform(fetched.value))))
      && (fetched.Err? ==> r == Err(fetched.error))
  {
    var full := GetGeralDataFromToken(cache, token, now, reply, storedAt);
    if full.Err? {
      return Err(full.error);
    }
    var transformed := TransformToJsonFormat(full.value);
    r := Ok(Envelope("success", transformed));
  }
}
