/** The API routes (api/routes.py): `/me`, which wraps the user service, and
    `/data/geral/filter`, which returns the spreadsheet records whose
    "RAZÃO SOCIAL" contains a name, ignoring case. */
module Routes {
  import opened Common
  import TokenCache
  import User
  import SetoresGeral

  /** The handlers' catch-all: an HTTPException goes out unchanged, any other
      exception becomes a 500 "Erro interno: ...". */
  function AsHttp(f: Failure): (h: Failure)
    ensures h.HttpException?
    ensures f.HttpException? ==> h == f
    ensures f.Exception? ==> h.status == 500 && IsPrefix("Erro interno: ", h.detail)
  {
    match f
    case HttpException(_, _) => f
    case Exception(text) => HttpException(500, "Erro interno: " + text)
  }

  // ---------------------------------------------------------------------
  // /me

  datatype MeBody = MeBody(success: bool, user: map<string, Json>, message: string)

  /** `get_user_me` */
  method GetUserMe(cache: TokenCache.Cache, token: string, now: real,
                   reply: Reply<User.UserData>, storedAt: real) returns (r: Result<MeBody>)
    modifies cache
    ensures var (full, after) := User.FetchUser(old(cache.entries), token, now, reply, storedAt);
      && cache.entries == after
      && (full.Ok? ==> r == Ok(MeBody(true, User.FilterUserData(full.value), "Dados obtidos do Microsoft Graph API")))
      && (full.Err? ==> r == Err(AsHttp(full.error)))
  {
    var user := User.GetUserFromToken(cache, token, now, reply, storedAt);
    match user {
      case Ok(u) => r := Ok(MeBody(true, u, "Dados obtidos do Microsoft Graph API"));
      case Err(e) => r := Err(AsHttp(e));
    }
  }

  // ---------------------------------------------------------------------
  // /data/geral/

  /** The `/data/geral/` handler: the transformed records; any failure of
      the service goes out as an HTTPException. */
  method GetGeralData(cache: TokenCache.Cache, token: string, now: real,
                      reply: Reply<Sheet>, storedAt: real) returns (r: Result<SetoresGeral.Envelope>)
    modifies cache
    ensures var (fetched, after) := SetoresGeral.Fetch(old(cache.entries), token, now, reply, storedAt);
      && cache.entries == after
      && (fetched.Ok? ==> r == Ok(SetoresGeral.Envelope("success", SetoresGeral.Transform(fetched.value))))
      && (fetched.Err? ==> r == Err(AsHttp(fetched.error)))
  {
    var data := SetoresGeral.GetFilteredGeralData(cache, token, now, reply, storedAt);
    r := if data.Ok? then data else Err(AsHttp(data.error));
  }

  // ---------------------------------------------------------------------
  // /data/geral/filter


  const RazaoSocial := "RAZÃO SOCIAL"

  /** The type name Python reports for a cell that is not a string. */
  function TypeName(c: Cell): string {
    match c
    case Text(_) => "str"
    case Number(_, repr) =>
      if Contains(repr, ".") || Contains(repr, "e") || Contains(repr, "n") then "float" else "int"
    case Boolean(_) => "bool"
  }

  /** The AttributeError raised by calling a string method on a non-string cell. */
  function NoAttribute(c: Cell, attr: string): Failure {
    Exception("'" + TypeName(c) + "' object has no attribute '" + attr + "'")
  }

  /** The header loop from column `i` on: the first column whose upper-cased
      header is "RAZÃO SOCIAL"; a non-text header met first raises. */
  function ColumnFrom(headers: Row, i: nat, upper: CaseMap): Result<Option<nat>>
    requires i <= |headers|
    decreases |headers| - i
  {
    if i == |headers| then Ok(None)
    else match headers[i]
      case Text(h) => if upper(h) == RazaoSocial then Ok(Some(i)) else ColumnFrom(headers, i + 1, upper)
      case _ => Err(NoAttribute(headers[i], "upper"))
  }

  /** The column found is the first "RAZÃO SOCIAL" header, every header
      before it being text; no column means every header is text and none
      matches; an error means a non-text header comes before any match. */
  lemma {:induction false} ColumnFromSpec(headers: Row, i: nat, upper: CaseMap)
    requires i <= |headers|
    ensures match ColumnFrom(headers, i, upper)
      case Ok(Some(c)) =>
        && i <= c < |headers| && headers[c].Text? && upper(headers[c].s) == RazaoSocial
        && forall k :: i <= k < c ==> headers[k].Text? && upper(headers[k].s) != RazaoSocial
      case Ok(None) =>
        forall k :: i <= k < |headers| ==> headers[k].Text? && upper(headers[k].s) != RazaoSocial
      case Err(_) =>
        exists k :: i <= k < |headers| && !headers[k].Text?
          && forall k2 :: i <= k2 < k ==> headers[k2].Text? && upper(headers[k2].s) != RazaoSocial
    decreases |headers| - i
  {
    if i < |headers| && headers[i].Text? && upper(headers[i].s) != RazaoSocial {
      ColumnFromSpec(headers, i + 1, upper);
      match ColumnFrom(headers, i + 1, upper) {
        case Err(_) =>
          var k :| i + 1 <= k < |headers| && !headers[k].Text?
            && forall k2 :: i + 1 <= k2 < k ==> headers[k2].Text? && upper(headers[k2].s) != RazaoSocial;
          assert forall k2 :: i <= k2 < k ==> headers[k2].Text? && upper(headers[k2].s) != RazaoSocial;
        case Ok(_) =>
      }
    }
  }

  /** What the row test decides for one row. */
  datatype Verdict = Keep | Skip | Fail(failure: Failure)

  /** A non-empty row whose name cell exists, is truthy and, lower-cased,
      contains the lower-cased name is kept; a truthy name cell that is not
      text raises. */
  function RowVerdict(row: Row, idx: nat, needle: string, lower: CaseMap): Verdict {
    if row == [] || idx >= |row| || !Truthy(row[idx]) then Skip
    else match row[idx]
      case Text(s) => if Contains(lower(s), needle) then Keep else Skip
      case _ => Fail(NoAttribute(row[idx], "lower"))
  }

  /** The rows kept among rows 1 .. n-1, or the first failure. */
  function MatchIds(values: seq<Row>, idx: nat, needle: string, lower: CaseMap, n: nat): (r: Result<seq<nat>>)
    requires n <= |values|
    ensures r.Ok? ==> forall i :: 0 <= i < |r.value| ==> 1 <= r.value[i] < n
  {
    if n <= 1 then Ok([])
    else match MatchIds(values, idx, needle, lower, n - 1)
      case Err(e) => Err(e)
      case Ok(ids) =>
        match RowVerdict(values[n - 1], idx, needle, lower)
        case Keep => Ok(ids + [n - 1])
        case Skip => Ok(ids)
        case Fail(e) => Err(e)
  }

  /** Without a failure, the ids are increasing and name exactly the kept
      rows, each of which is a non-empty data row. */
  lemma {:induction false} MatchIdsSpec(values: seq<Row>, idx: nat, needle: string, lower: CaseMap, n: nat)
    requires n <= |values|
    requires MatchIds(values, idx, needle, lower, n).Ok?
    ensures var ids := MatchIds(values, idx, needle, lower, n).value;
      && (forall i :: 0 <= i < |ids| ==> values[ids[i]] != [])
      && (forall i, j :: 0 <= i < j < |ids| ==> ids[i] < ids[j])
      && (forall k :: k in ids <==> 1 <= k < n && RowVerdict(values[k], idx, needle, lower) == Keep)
  {
    var ids := MatchIds(values, idx, needle, lower, n).value;
    MatchIdsIncreasing(values, idx, needle, lower, n);
    MatchIdsMembers(values, idx, needle, lower, n);
    forall i | 0 <= i < |ids| ensures values[ids[i]] != [] {
      assert ids[i] in ids;
    }
  }

  /** One more row: its id is appended when it is kept. */
  lemma MatchIdsStep(values: seq<Row>, idx: nat, needle: string, lower: CaseMap, n: nat)
    requires 1 < n <= |values|
    requires MatchIds(values, idx, needle, lower, n).Ok?
    ensures MatchIds(values, idx, needle, lower, n - 1).Ok?
    ensures MatchIds(values, idx, needle, lower, n).value ==
      MatchIds(values, idx, needle, lower, n - 1).value
        + (if RowVerdict(values[n - 1], idx, needle, lower) == Keep then [n - 1] else [])
  {
  }

  lemma {:induction false} MatchIdsIncreasing(values: seq<Row>, idx: nat, needle: string, lower: CaseMap, n: nat)
    requires n <= |values|
    requires MatchIds(values, idx, needle, lower, n).Ok?
    ensures var ids := MatchIds(values, idx, needle, lower, n).value;
      forall i, j :: 0 <= i < j < |ids| ==> ids[i] < ids[j]
  {
    if n > 1 {
      MatchIdsStep(values, idx, needle, lower, n);
      MatchIdsIncreasing(values, idx, needle, lower, n - 1);
    }
  }

  lemma {:induction false} MatchIdsMembers(values: seq<Row>, idx: nat, needle: string, lower: CaseMap, n: nat)
    requires n <= |values|
    requires MatchIds(values, idx, needle, lower, n).Ok?
    ensures var ids := MatchIds(values, idx, needle, lower, n).value;
      forall k :: k in ids <==> 1 <= k < n && RowVerdict(values[k], idx, needle, lower) == Keep
  {
    if n > 1 {
      MatchIdsStep(values, idx, needle, lower, n);
      MatchIdsMembers(values, idx, needle, lower, n - 1);
    }
  }

  /** The filter fails exactly when some data row's name cell is truthy but
      not text. */
  lemma {:induction false} MatchIdsFails(values: seq<Row>, idx: nat, needle: string, lower: CaseMap, n: nat)
    requires n <= |values|
    ensures MatchIds(values, idx, needle, lower, n).Ok? <==>
      forall k :: 1 <= k < n ==> !RowVerdict(values[k], idx, needle, lower).Fail?
  {
    if n > 1 {
      MatchIdsFails(values, idx, needle, lower, n - 1);
    }
  }

  /** Once a row has failed, the failure is the answer, whatever follows. */
  lemma {:induction false} MatchIdsErrPersists(values: seq<Row>, idx: nat, needle: string, lower: CaseMap, n: nat, m: nat)
    requires n <= m <= |values|
    requires MatchIds(values, idx, needle, lower, n).Err?
    ensures MatchIds(values, idx, needle, lower, m) == MatchIds(values, idx, needle, lower, n)
    decreases m
  {
    if m > n {
      MatchIdsErrPersists(values, idx, needle, lower, n, m - 1);
    }
  }

  /** The filter's answer for a spreadsheet's `values` (missing: `[]`):
      nothing without a data row or without a "RAZÃO SOCIAL" column; a
      failure exactly when a header before that column, or the name cell of
      a data row, is not text; otherwise one record per kept row. */
  function Filter(values: seq<Row>, name: string, upper: CaseMap, lower: CaseMap): (r: Result<seq<SetoresGeral.Record>>)
    ensures |values| < 2 ==> r == Ok([])
    ensures |values| >= 2 && ColumnFrom(values[0], 0, upper) == Ok(None) ==> r == Ok([])
    ensures |values| >= 2 && ColumnFrom(values[0], 0, upper).Err? ==> r == Err(ColumnFrom(values[0], 0, upper).error)
    ensures |values| >= 2 && ColumnFrom(values[0], 0, upper).Ok? && ColumnFrom(values[0], 0, upper).value.Some? ==>
      var idx := ColumnFrom(values[0], 0, upper).value.value;
      && (r.Ok? <==> forall k :: 1 <= k < |values| ==> !RowVerdict(values[k], idx, lower(name), lower).Fail?)
      && (r.Ok? ==> MatchIds(values, idx, lower(name), lower, |values|).Ok?)
      && (r.Ok? ==>
            var ids := MatchIds(values, idx, lower(name), lower, |values|).value;
            && |r.value| == |ids|
            && forall i :: 0 <= i < |ids| ==> r.value[i] == SetoresGeral.BuildRecord(values[0], values[ids[i]], ids[i]))
  {
    if |values| < 2 then Ok([])
    else match ColumnFrom(values[0], 0, upper)
      case Err(e) => Err(e)
      case Ok(None) => Ok([])
      case Ok(Some(idx)) =>
        MatchIdsFails(values, idx, lower(name), lower, |values|);
        match MatchIds(values, idx, lower(name), lower, |values|)
        case Err(e) => Err(e)
        case Ok(ids) =>
          SetoresGeral.RecordsAt(values[0], values, ids);
          Ok(SetoresGeral.Records(values[0], values, ids))
  }

  /** Every record the filter returns is one `transform_to_json_format`
      builds for the same spreadsheet, and they come in row order. */
  lemma FilterIsSubsequenceOfTransform(values: seq<Row>, name: string, upper: CaseMap, lower: CaseMap, other: bool)
    requires Filter(values, name, upper, lower).Ok?
    ensures var rs := Filter(values, name, upper, lower).value;
      var all := SetoresGeral.Transform(Sheet(Some(values), other));
      && (forall i :: 0 <= i < |rs| ==> rs[i] in all)
      && (forall i, j :: 0 <= i < j < |rs| ==>
            && SetoresGeral.IdKey in rs[i] && SetoresGeral.IdKey in rs[j]
            && rs[i][SetoresGeral.IdKey].IdValue? && rs[j][SetoresGeral.IdKey].IdValue?
            && rs[i][SetoresGeral.IdKey].id < rs[j][SetoresGeral.IdKey].id)
  {
    if |values| >= 2 && ColumnFrom(values[0], 0, upper).Ok? && ColumnFrom(values[0], 0, upper).value.Some? {
      var idx := ColumnFrom(values[0], 0, upper).value.value;
      var ids := MatchIds(values, idx, lower(name), lower, |values|).value;
      var rs := Filter(values, name, upper, lower).value;
      var sheet := Sheet(Some(values), other);
      MatchIdsSpec(values, idx, lower(name), lower, |values|);
      SetoresGeral.RecordsAt(values[0], values, ids);
      var all := SetoresGeral.Transform(sheet);
      var dataIds := SetoresGeral.DataRowIds(values, |values|);
      forall i | 0 <= i < |rs|
        ensures rs[i] in all
        ensures rs[i][SetoresGeral.IdKey] == SetoresGeral.IdValue(ids[i])
      {
        assert ids[i] in dataIds;
        var p :| 0 <= p < |dataIds| && dataIds[p] == ids[i];
        assert all[p] == rs[i];
        SetoresGeral.BuildRecordSpec(values[0], values[ids[i]], ids[i]);
      }
      forall i, j | 0 <= i < j < |rs|
        ensures && SetoresGeral.IdKey in rs[i] && SetoresGeral.IdKey in rs[j]
                && rs[i][SetoresGeral.IdKey].IdValue? && rs[j][SetoresGeral.IdKey].IdValue?
                && rs[i][SetoresGeral.IdKey].id < rs[j][SetoresGeral.IdKey].id
      {
        assert ids[i] < ids[j];
      }
    } else {
      assert Filter(values, name, upper, lower).value == [];
    }
  }

  /** With a case mapping that leaves "" alone, an empty name keeps every
      data row whose name cell is non-empty text. */
  lemma EmptyNameKeepsNamedRows(row: Row, idx: nat, lower: CaseMap)
    requires lower("") == ""
    ensures RowVerdict(row, idx, lower(""), lower) == Keep <==>
      row != [] && idx < |row| && row[idx].Text? && row[idx].s != ""
  {
    if row != [] && idx < |row| && row[idx].Text? && row[idx].s != "" {
      EmptyIsContained(lower(row[idx].s));
    }
  }

  /** The header loop: the index of the "RAZÃO SOCIAL" column. */
  method FindColumn(headers: Row, upper: CaseMap) returns (c: Result<Option<nat>>)
    ensures c == ColumnFrom(headers, 0, upper)
  {
    var i := 0;
    while i < |headers|
      invariant 0 <= i <= |headers|
      invariant ColumnFrom(headers, 0, upper) == ColumnFrom(headers, i, upper)
    {
      if !headers[i].Text? {
        return Err(NoAttribute(headers[i], "upper"));
      }
      if upper(headers[i].s) == RazaoSocial {
        return Ok(Some(i));
      }
      i := i + 1;
    }
    return Ok(None);
  }

  /** The row loop: the records of the kept rows, or the first failure. */
  method CollectMatches(values: seq<Row>, idx: nat, name: string, lower: CaseMap)
    returns (r: Result<seq<SetoresGeral.Record>>)
    requires |values| >= 1
    ensures var m := MatchIds(values, idx, lower(name), lower, |values|);
      r == if m.Ok? then Ok(SetoresGeral.Records(values[0], values, m.value)) else Err(m.error)
  {
    var headers := values[0];
    var result: seq<SetoresGeral.Record> := [];
    var rowIndex := 1;
    while rowIndex < |values|
      invariant 1 <= rowIndex <= |values|
      invariant MatchIds(values, idx, lower(name), lower, rowIndex).Ok?
      invariant result == SetoresGeral.Records(headers, values, MatchIds(values, idx, lower(name), lower, rowIndex).value)
    {
      var row := values[rowIndex];
      ghost var ids := MatchIds(values, idx, lower(name), lower, rowIndex).value;
      if row != [] && idx < |row| && Truthy(row[idx]) {
        if !row[idx].Text? {
          MatchIdsErrPersists(values, idx, lower(name), lower, rowIndex + 1, |values|);
          return Err(NoAttribute(row[idx], "lower"));
        }
        if Contains(lower(row[idx].s), lower(name)) {
          var obj := SetoresGeral.BuildRowObject(headers, row, rowIndex);
          assert (ids + [rowIndex])[..|ids|] == ids;
          result := result + [obj];
        }
      }
      rowIndex := rowIndex + 1;
    }
    r := Ok(result);
  }

  /** The body of the handler after the fetch. */
  method FilterByRazaoSocial(values: seq<Row>, name: string, upper: CaseMap, lower: CaseMap)
    returns (r: Result<seq<SetoresGeral.Record>>)
    ensures r == Filter(values, name, upper, lower)
    ensures |values| < 2 ==> r == Ok([])
  {
    if |values| < 2 {
      return Ok([]);
    }
    var column := FindColumn(values[0], upper);
    match column {
      case Err(e) => r := Err(e);
      case Ok(None) => r := Ok([]);
      case Ok(Some(idx)) => r := CollectMatches(values, idx, name, lower);
    }
  }

  datatype FilterBody = FilterBody(data: seq<SetoresGeral.Record>)

  /** The `/data/geral/filter` handler: fetch (through the cache), then filter. */
  method GetFilteredByName(cache: TokenCache.Cache, token: string, name: string, now: real,
                           reply: Reply<Sheet>, storedAt: real, upper: CaseMap, lower: CaseMap)
    returns (r: Result<FilterBody>)
    modifies cache
    ensures var (fetched, after) := SetoresGeral.Fetch(old(cache.entries), token, now, reply, storedAt);
      && cache.entries == after
      && (fetched.Err? ==> r == Err(AsHttp(fetched.error)))
      && (fetched.Ok? ==>
            var values := if fetched.value.values.Some? then fetched.value.values.value else [];
            var f := Filter(values, name, upper, lower);
            r == if f.Ok? then Ok(FilterBody(f.value)) else Err(AsHttp(f.error)))
  {
    var full := SetoresGeral.GetGeralDataFromToken(cache, token, now, reply, storedAt);
    if full.Err? {
      return Err(AsHttp(full.error));
    }
    var values := if full.value.values.Some? then full.value.values.value else [];
    var f := FilterByRazaoSocial(values, name, upper, lower);
    r := if f.Ok? then Ok(FilterBody(f.value)) else Err(AsHttp(f.error));
  }
}
