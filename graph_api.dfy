/** The Graph client used by the newer services (api/lib/graph_api.py): the
    decorator that turns request failures into HTTPExceptions, the URL of a
    worksheet range, and the memo from a SharePoint path to drive and item ids. */
module GraphApi {
  import opened Common

  const GraphApiUrl := "https://graph.microsoft.com/v1.0"

  /** How one Graph request ended. */
  datatype GraphReply<+T> =
    | Got(body: T)
    | HttpError(status: Option<int>, text: string)   // HTTPError, with or without a response
    | RequestError(text: string)                      // any other RequestException
    | BadJson                                         // json.JSONDecodeError

  /** `handle_graph_api_errors`: 401 and 403 keep their status with a fixed
      text, any other status with a response passes through, and every other
      failure is a 500. */
  function GraphFailure<T>(reply: GraphReply<T>): (f: Failure)
    requires !reply.Got?
    ensures f.HttpException?
    ensures reply.HttpError? && reply.status.Some? ==> f.status == reply.status.value
    ensures !(reply.HttpError? && reply.status.Some?) ==> f.status == 500
  {
    match reply
    case HttpError(Some(s), text) =>
      if s == 401 then HttpException(401, "Token inválido ou expirado")
      else if s == 403 then HttpException(403, "Permissões insuficientes para esse recurso")
      else HttpException(s, "Erro na Graph API: " + text)
    case HttpError(None, text) => HttpException(500, "Erro HTTP: " + text)
    case RequestError(text) => HttpException(500, "Erro de conexão com os servidores da Graph API: " + text)
    case BadJson => HttpException(500, "Erro ao processar a resposta da API")
  }

  /** A decorated call: the body, or the mapped failure. */
  function Decorated<T>(reply: GraphReply<T>): (r: Result<T>)
    ensures reply.Got? <==> r.Ok?
    ensures r.Ok? ==> r.value == reply.body
    ensures r.Err? ==> r.error.HttpException?
  {
    if reply.Got? then Ok(reply.body) else Err(GraphFailure(reply))
  }

  /** The URL `get_graph_spreadsheet` requests: a worksheet range, followed by
      `params` when it is given and non-empty. */
  function SpreadsheetUrl(driveId: string, sheetId: string, worksheet: string,
                          first: string, last: string, params: Option<string>): (url: string)
    ensures var base := GraphApiUrl + "/drives/" + driveId + "/items/" + sheetId
                        + "/workbook/worksheets('" + worksheet + "')/range(address='" + first + ":" + last + "')";
      && IsPrefix(base, url)
      && (params.None? || params == Some("") ==> url == base)
      && (params.Some? ==> url == base + params.value)
  {
    var suffix := if params.Some? then params.value else "";
    GraphApiUrl + "/drives/" + driveId + "/items/" + sheetId
      + "/workbook/worksheets('" + worksheet + "')/range(address='" + first + ":" + last + "')" + suffix
  }

  /** What `get_ids_by_path` returns. */
  datatype Ids = Ids(driveId: string, itemId: string, name: string)

  /** `obj[key]` for a string value; a missing key is a KeyError. */
  function Field(obj: map<string, Json>, key: string): Result<string> {
    if key in obj && obj[key].JStr? then Ok(obj[key].s) else Err(Exception("'" + key + "'"))
  }

  /** `get_ids_by_path`, given the two Graph replies (the site, then the file
      in the site's default drive): `drive_id` from `parentReference.driveId`,
      `item_id` from `id`, and the file's `name`. */
  function IdsByPath(siteReply: GraphReply<map<string, Json>>, fileReply: GraphReply<map<string, Json>>): (r: Result<Ids>)
    ensures r.Ok? ==> (
      && siteReply.Got? && fileReply.Got?
      && var file := fileReply.body;
         && "id" in file && file["id"] == JStr(r.value.itemId)
         && "name" in file && file["name"] == JStr(r.value.name)
         && "parentReference" in file && file["parentReference"].JObj?
         && "driveId" in file["parentReference"].fields
         && file["parentReference"].fields["driveId"] == JStr(r.value.driveId))
    ensures (&& siteReply.Got? && "id" in siteReply.body && fileReply.Got?
             && var file := fileReply.body;
                && "id" in file && file["id"].JStr? && "name" in file && file["name"].JStr?
                && "parentReference" in file && file["parentReference"].JObj?
                && "driveId" in file["parentReference"].fields
                && file["parentReference"].fields["driveId"].JStr?)
            ==> r.Ok?
    ensures !siteReply.Got? ==> r == Err(GraphFailure(siteReply))
    ensures siteReply.Got? && "id" !in siteReply.body ==> r == Err(Exception("'id'"))
    ensures siteReply.Got? && "id" in siteReply.body && !fileReply.Got? ==> r == Err(GraphFailure(fileReply))
    ensures siteReply.Got? && "id" in siteReply.body && fileReply.Got? && "id" !in fileReply.body
            ==> r == Err(Exception("'id'"))
  {
    match Decorated(siteReply)
    case Err(e) => Err(e)
    case Ok(site) =>
      if "id" !in site then Err(Exception("'id'"))
      else
        match Decorated(fileReply)
        case Err(e) => Err(e)
        case Ok(file) =>
          assert "'" + "id" + "'" == "'id'";
          match Field(file, "id")
          case Err(e) => Err(e)
          case Ok(itemId) =>
            if "parentReference" !in file then Err(Exception("'parentReference'"))
            else if !file["parentReference"].JObj? then Err(Exception("'parentReference' is not an object"))
            else match Field(file["parentReference"].fields, "driveId")
              case Err(e) => Err(e)
              case Ok(driveId) =>
                match Field(file, "name")
                case Err(e) => Err(e)
                case Ok(name) => Ok(Ids(driveId, itemId, name))
  }

  /** The memo key for a file in a site. */
  function MemoKey(sitePath: string, filePath: string): string {
    sitePath + "/" + filePath
  }

  /** The ids used for a request and the memo left behind: a hit is used as
      is, whatever Graph would answer; a miss resolves the path, and only a
      successful resolution is stored, under the path's key. */
  function Resolve(memo: map<string, Ids>, sitePath: string, filePath: string,
                   siteReply: GraphReply<map<string, Json>>, fileReply: GraphReply<map<string, Json>>)
    : (r: (Result<Ids>, map<string, Ids>))
    ensures var key := MemoKey(sitePath, filePath);
      && (key in memo ==> r == (Ok(memo[key]), memo))
      && (key !in memo ==> r.0 == IdsByPath(siteReply, fileReply))
      && (r.0.Ok? ==> key in r.1 && r.1[key] == r.0.value)
      && (r.0.Err? ==> r.1 == memo)
      && r.1.Keys == memo.Keys + (if r.0.Ok? then {key} else {})
  {
    var key := MemoKey(sitePath, filePath);
    if key in memo then (Ok(memo[key]), memo)
    else
      var ids := IdsByPath(siteReply, fileReply);
      if ids.Ok? then (ids, memo[key := ids.value]) else (ids, memo)
  }

  /** Entries are only ever added: every id pair resolved before is kept. */
  lemma ResolveOnlyAdds(memo: map<string, Ids>, sitePath: string, filePath: string,
                        siteReply: GraphReply<map<string, Json>>, fileReply: GraphReply<map<string, Json>>)
    ensures var after := Resolve(memo, sitePath, filePath, siteReply, fileReply).1;
      && (forall k :: k in memo ==> k in after && after[k] == memo[k])
      && (forall k :: k in after && k !in memo ==> k == MemoKey(sitePath, filePath))
  {
  }

  /** Once a path has been resolved, every later request for it uses the
      stored ids and asks Graph nothing about the site or the file. */
  lemma {:induction false} ResolvedPathIsReused(memo: map<string, Ids>, sitePath: string, filePath: string,
                                                siteReply: GraphReply<map<string, Json>>, fileReply: GraphReply<map<string, Json>>,
                                                siteReply2: GraphReply<map<string, Json>>, fileReply2: GraphReply<map<string, Json>>)
    requires Resolve(memo, sitePath, filePath, siteReply, fileReply).0.Ok?
    ensures var (ids, after) := Resolve(memo, sitePath, filePath, siteReply, fileReply);
      Resolve(after, sitePath, filePath, siteReply2, fileReply2) == (ids, after)
  {
    var key := MemoKey(sitePath, filePath);
    var (ids, after) := Resolve(memo, sitePath, filePath, siteReply, fileReply);
    assert key in after && after[key] == ids.value;
  }

  /** `PATH_ID_CACHE` */
  class PathIdCache {
    var memo: map<string, Ids>

    constructor ()
      ensures memo == map[]
    {
      memo := map[];
    }

    /** `get_spreadsheet_by_path`: the ids (from the memo or resolved), then
        the range request at the URL those ids give. */
    method GetSpreadsheetByPath<T>(sitePath: string, filePath: string, worksheet: string, first: string, last: string,
                                siteReply: GraphReply<map<string, Json>>, fileReply: GraphReply<map<string, Json>>,
                                sheetReply: GraphReply<T>)
      returns (url: Option<string>, r: Result<T>)
      modifies this
      ensures var (ids, after) := Resolve(old(memo), sitePath, filePath, siteReply, fileReply);
        && memo == after
        && (ids.Err? ==> url.None? && r == Err(ids.error))
        && (ids.Ok? ==> url == Some(SpreadsheetUrl(ids.value.driveId, ids.value.itemId, worksheet, first, last, None))
                        && r == Decorated(sheetReply))
    {
      var key := MemoKey(sitePath, filePath);
      ghost var res := Resolve(memo, sitePath, filePath, siteReply, fileReply);
      var ids: Ids;
      if key in memo {
        ids := memo[key];
        assert res == (Ok(ids), memo);
      } else {
        var resolved := IdsByPath(siteReply, fileReply);
        assert res.0 == resolved;
        if resolved.Err? {
          return None, Err(resolved.error);
        }
        ids := resolved.value;
        memo := memo[key := ids];
        assert res == (resolved, memo);
      }
      url := Some(SpreadsheetUrl(ids.driveId, ids.itemId, worksheet, first, last, None));
      r := Decorated(sheetReply);
    }
  }
}
