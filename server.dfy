/**
 * The request path of the record server (main.go): the token gate wrapped around
 * both routes, the "all records" handler, the "by id" handler, and the helper that
 * loads the record file.
 *
 * File reading and JSON decoding are not modelled: the handlers receive the outcome
 * of loading the store as a LoadResult, and the response payload is kept as values
 * (the list, one record, or the plain-text message of an error response).
 */
module Server {
  import opened Wrappers
  import Strconv

  /** One person entry of the store (main.go:19-27); JSON keys in comments. */
  datatype Data = Data(
    id: int,            // "id"
    image: string,      // "jpg"
    name: string,       // "name": last name
    firstName: string,  // "vorname"
    address: string,    // "adresse"
    panCard: string,    // "pan_card_number"
    expiryDate: string  // "expiration_date"
  )

  newtype byte = x: int | 0 <= x < 256

  /** Outcome of readAllJSONData: the decoded records, or an error the handlers do not inspect. */
  datatype LoadResult = Loaded(records: seq<Data>) | LoadFailed

  /**
   * readAllJSONData (main.go:116-132): the store loads when the file can be read
   * and its bytes unmarshal; any other outcome is the one opaque failure.
   * `fileBytes` stands for ioutil.ReadFile("user.json") and `unmarshal` for json.Unmarshal.
   */
  function ReadAllJSONData(fileBytes: Option<seq<byte>>, unmarshal: seq<byte> -> Option<seq<Data>>): (r: LoadResult)
    ensures r.Loaded? <==> fileBytes.Some? && unmarshal(fileBytes.value).Some?
    ensures r.Loaded? ==> r.records == unmarshal(fileBytes.value).value
  {
    match fileBytes
    case None => LoadFailed
    case Some(bytes) =>
      match unmarshal(bytes)
      case None => LoadFailed
      case Some(data) => Loaded(data)
  }

  const StatusOK := 200
  const StatusBadRequest := 400
  const StatusForbidden := 403
  const StatusNotFound := 404
  const StatusInternalServerError := 500

  /** The token both routes demand in the Authorization header. */
  const Secret := "robel"

  const DataPrefix := "/data/"

  /** An inbound request: its header (canonical key to values) and its URL path. */
  datatype Request = Request(header: map<string, seq<string>>, path: string)

  datatype Payload = Records(records: seq<Data>) | Record(record: Data) | Text(message: string)

  datatype Response = Response(status: int, payload: Payload)

  /** http.Error: a status with a plain-text message. */
  function Error(message: string, code: int): Response {
    Response(code, Text(message))
  }

  /** Header.Get: the first value under the key, "" when the header is absent. */
  function HeaderGet(header: map<string, seq<string>>, key: string): (v: string)
    ensures (key !in header || |header[key]| == 0) ==> v == ""
    ensures key in header && |header[key]| > 0 ==> v == header[key][0]
  {
    if key in header && |header[key]| > 0 then header[key][0] else ""
  }

  predicate Authorized(r: Request) {
    HeaderGet(r.header, "Authorization") == Secret
  }

  /**
   * AuthMiddleware (main.go:31-45): an exact comparison with the secret; on a
   * mismatch the request stops with 403 and `next` is not called. The inner
   * handler's own precondition matters only when it is called.
   */
  function AuthMiddleware(next: Request --> Response, r: Request): Response
    requires Authorized(r) ==> next.requires(r)
  {
    var token := HeaderGet(r.header, "Authorization");
    if token != Secret then Error("Forbidden", StatusForbidden) else next(r)
  }

  /** handleDataRequest (main.go:63-77). */
  function DataResponse(load: LoadResult): Response {
    match load
    case LoadFailed => Error("Failed to read data", StatusInternalServerError)
    case Loaded(data) => Response(StatusOK, Records(data))
  }

  predicate IsFirstMatch(data: seq<Data>, id: int, i: int) {
    && 0 <= i < |data|
    && data[i].id == id
    && forall j :: 0 <= j < i ==> data[j].id != id
  }

  /** Index of the first record, in file order, whose id is `id`. */
  function FirstMatch(data: seq<Data>, id: int): (r: Option<nat>)
    ensures r.Some? ==> IsFirstMatch(data, id, r.value)
    ensures r.None? <==> forall j :: 0 <= j < |data| ==> data[j].id != id
  {
    if data == [] then None
    else if data[0].id == id then Some(0)
    else
      match FirstMatch(data[1..], id)
      case None => None
      case Some(k) =>
        assert forall j :: 1 <= j <= k ==> data[j] == data[1..][j - 1];
        Some(k + 1)
  }

  function FindRecord(data: seq<Data>, id: int): Option<Data> {
    match FirstMatch(data, id)
    case None => None
    case Some(i) => Some(data[i])
  }

  predicate HasDataPrefix(path: string) {
    |path| >= |DataPrefix| && path[..|DataPrefix|] == DataPrefix
  }

  /** The text after "/data/" (main.go:83); the router only sends paths with that prefix. */
  function IDText(r: Request): string
    requires HasDataPrefix(r.path)
  {
    r.path[|DataPrefix|..]
  }

  /** handleDataByIDRequest (main.go:81-113): parse, then load, then search, else 404. */
  function DataByIDResponse(load: LoadResult, r: Request): Response
    requires HasDataPrefix(r.path)
  {
    match Strconv.Atoi(IDText(r))
    case None => Error("Invalid ID", StatusBadRequest)
    case Some(id) =>
      match load
      case LoadFailed => Error("Failed to read data", StatusInternalServerError)
      case Loaded(data) =>
        match FindRecord(data, id)
        case Some(record) => Response(StatusOK, Record(record))
        case None => Error("Data not found", StatusNotFound)
  }

  /** The two registered routes, "/data" and "/data/{id}" (main.go:49, main.go:52). */
  datatype Route = DataRoute | DataByIDRoute

  predicate Routable(route: Route, r: Request) {
    route == DataByIDRoute ==> HasDataPrefix(r.path)
  }

  /** A request as the server answers it: every route goes through the same gate. */
  function Serve(route: Route, load: LoadResult, r: Request): Response
    requires Routable(route, r)
  {
    match route
    case DataRoute =>
      AuthMiddleware((r': Request) => DataResponse(load), r)
    case DataByIDRoute =>
      AuthMiddleware((r': Request) requires HasDataPrefix(r'.path) => DataByIDResponse(load, r'), r)
  }

  /**
   * handleDataByIDRequest as the source runs it: parse the id, check the load,
   * then scan the records in order and stop at the first match.
   */
  method HandleDataByIDRequest(load: LoadResult, r: Request) returns (resp: Response)
    requires HasDataPrefix(r.path)
    ensures resp == DataByIDResponse(load, r)
  {
    var idStr := r.path[|DataPrefix|..];
    var parsed := Strconv.Atoi(idStr);
    if parsed.None? {
      return Error("Invalid ID", StatusBadRequest);
    }
    var id := parsed.value;
    if load.LoadFailed? {
      return Error("Failed to read data", StatusInternalServerError);
    }
    var data := load.records;
    for i := 0 to |data|
      invariant forall j :: 0 <= j < i ==> data[j].id != id
    {
      if data[i].id == id {
        assert FirstMatch(data, id) == Some(i);
        return Response(StatusOK, Record(data[i]));
      }
    }
    return Error("Data not found", StatusNotFound);
  }

  /** The gated handler of a route, invoked for one request. */
  method ServeHTTP(route: Route, load: LoadResult, r: Request) returns (resp: Response)
    requires Routable(route, r)
    ensures resp == Serve(route, load, r)
  {
    var token := HeaderGet(r.header, "Authorization");
    if token != Secret {
      return Error("Forbidden", StatusForbidden);
    }
    match route
    case DataRoute =>
      resp := DataResponse(load);
    case DataByIDRoute =>
      resp := HandleDataByIDRequest(load, r);
  }
}
