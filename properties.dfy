/** What the request path promises, stated over Server.Serve for every route, store and request. */
module ServerProperties {
  import opened Wrappers
  import Strconv
  import opened Server

  /** Whether the by-id route gets an id that Atoi accepts. */
  predicate IDParses(route: Route, r: Request)
    requires Routable(route, r)
  {
    route == DataByIDRoute ==> Strconv.Atoi(IDText(r)).Some?
  }

  /** The message http.Error carries for each error status the handlers use. */
  function ErrorMessage(status: int): string {
    if status == StatusForbidden then "Forbidden"
    else if status == StatusBadRequest then "Invalid ID"
    else if status == StatusInternalServerError then "Failed to read data"
    else "Data not found"
  }

  /**
   * Without the exact secret, the answer is 403 "Forbidden" whatever the route and
   * the store: the wrapped handler is not reached and the store is not consulted.
   */
  lemma GateStopsRequest(route1: Route, route2: Route, load1: LoadResult, load2: LoadResult, r: Request)
    requires Routable(route1, r) && Routable(route2, r)
    requires !Authorized(r)
    ensures Serve(route1, load1, r) == Serve(route2, load2, r) == Error("Forbidden", StatusForbidden)
  {
  }

  /** With the secret, the gate hands the request unchanged to the inner handler. */
  lemma GatePassesThrough(next: Request --> Response, r: Request)
    requires Authorized(r) && next.requires(r)
    ensures AuthMiddleware(next, r) == next(r)
  {
  }

  /** Both routes are gated the same way: with the secret each is its bare handler. */
  lemma BothRoutesGated(load: LoadResult, r: Request)
    requires Authorized(r)
    ensures Serve(DataRoute, load, r) == DataResponse(load)
    ensures HasDataPrefix(r.path) ==> Serve(DataByIDRoute, load, r) == DataByIDResponse(load, r)
  {
  }

  /** 403 is the gate's alone: no handler answers 403. */
  lemma ForbiddenIffNotAuthorized(route: Route, load: LoadResult, r: Request)
    requires Routable(route, r)
    ensures Serve(route, load, r).status == StatusForbidden <==> !Authorized(r)
  {
  }

  /** An id that does not parse is 400 "Invalid ID" whatever the store holds: the store is not read. */
  lemma InvalidIDIsBadRequest(load1: LoadResult, load2: LoadResult, r: Request)
    requires HasDataPrefix(r.path) && Authorized(r)
    requires Strconv.Atoi(IDText(r)).None?
    ensures Serve(DataByIDRoute, load1, r) == Serve(DataByIDRoute, load2, r) == Error("Invalid ID", StatusBadRequest)
  {
  }

  /** A failed load is 500 "Failed to read data" on both routes, and no record data is sent. */
  lemma LoadFailureIsServerError(route: Route, r: Request)
    requires Routable(route, r) && Authorized(r) && IDParses(route, r)
    ensures Serve(route, LoadFailed, r) == Error("Failed to read data", StatusInternalServerError)
  {
  }

  /** "/data" answers 200 with exactly the loaded records: same length, same order. */
  lemma ListAllReturnsWholeStore(data: seq<Data>, r: Request)
    requires Authorized(r)
    ensures var resp := Serve(DataRoute, Loaded(data), r);
      && resp.status == StatusOK
      && resp.payload.Records?
      && |resp.payload.records| == |data|
      && forall i :: 0 <= i < |data| ==> resp.payload.records[i] == data[i]
  {
  }

  /**
   * A 200 on "/data/{id}" carries the first record in file order whose id is the
   * parsed id; no earlier record has that id.
   */
  lemma ByIDReturnsFirstMatch(load: LoadResult, r: Request)
    requires HasDataPrefix(r.path)
    ensures var resp := Serve(DataByIDRoute, load, r);
      resp.status == StatusOK ==>
        && Authorized(r) && load.Loaded? && Strconv.Atoi(IDText(r)).Some?
        && resp.payload.Record?
        && resp.payload.record.id == Strconv.Atoi(IDText(r)).value
        && exists i :: IsFirstMatch(load.records, Strconv.Atoi(IDText(r)).value, i)
                       && resp.payload.record == load.records[i]
  {
  }

  /** Conversely, an authorized lookup of an id some record has answers 200 with the first such record. */
  lemma ByIDFindsPresentID(data: seq<Data>, r: Request, k: nat)
    requires HasDataPrefix(r.path) && Authorized(r)
    requires Strconv.Atoi(IDText(r)).Some?
    requires k < |data| && data[k].id == Strconv.Atoi(IDText(r)).value
    ensures var resp := Serve(DataByIDRoute, Loaded(data), r);
      && resp.status == StatusOK
      && resp.payload.Record?
      && resp.payload.record.id == data[k].id
      && exists i :: 0 <= i <= k && resp.payload.record == data[i]
  {
  }

  /** 404 "Data not found" exactly when the store loaded and no record has the requested id. */
  lemma NotFoundIffNoRecord(load: LoadResult, r: Request)
    requires HasDataPrefix(r.path)
    ensures var resp := Serve(DataByIDRoute, load, r);
      resp.status == StatusNotFound <==>
        && Authorized(r) && Strconv.Atoi(IDText(r)).Some? && load.Loaded?
        && forall j :: 0 <= j < |load.records| ==> load.records[j].id != Strconv.Atoi(IDText(r)).value
  {
  }

  /**
   * Precedence of the checks: 403 before 400, 400 before 500, 500 before 200/404.
   * Each status holds exactly when every earlier check passed and its own failed.
   */
  lemma StatusPrecedence(route: Route, load: LoadResult, r: Request)
    requires Routable(route, r)
    ensures var s := Serve(route, load, r).status;
      && (s == StatusForbidden <==> !Authorized(r))
      && (s == StatusBadRequest <==> Authorized(r) && !IDParses(route, r))
      && (s == StatusInternalServerError <==> Authorized(r) && IDParses(route, r) && load.LoadFailed?)
      && (s == StatusOK || s == StatusNotFound <==> Authorized(r) && IDParses(route, r) && load.Loaded?)
      && (s == StatusNotFound ==> route == DataByIDRoute)
  {
  }

  /** Every response is one of the five statuses; errors carry text, successes carry records. */
  lemma StatusAndPayload(route: Route, load: LoadResult, r: Request)
    requires Routable(route, r)
    ensures var resp := Serve(route, load, r);
      && resp.status in {StatusOK, StatusBadRequest, StatusForbidden, StatusNotFound, StatusInternalServerError}
      && (resp.payload.Text? <==> resp.status != StatusOK)
      && (resp.payload.Text? ==> resp.payload.message == ErrorMessage(resp.status))
      && (resp.payload.Records? <==> resp.status == StatusOK && route == DataRoute)
      && (resp.payload.Record? <==> resp.status == StatusOK && route == DataByIDRoute)
  {
  }

  /** The path the client builds with "/data/%d" parses back to the id it was built from. */
  lemma ClientPathParses(id: int, h: map<string, seq<string>>)
    requires Strconv.InInt64Range(id)
    ensures HasDataPrefix(DataPrefix + Strconv.Itoa(id))
    ensures Strconv.Atoi(IDText(Request(h, DataPrefix + Strconv.Itoa(id)))) == Some(id)
  {
    var r := Request(h, DataPrefix + Strconv.Itoa(id));
    assert IDText(r) == Strconv.Itoa(id);
    Strconv.AtoiOfItoa(id);
  }

  /**
   * The demo client's by-id calls send "Bearer your_generated_token" (client.go:58):
   * the gate refuses them with 403 whatever id and store.
   */
  lemma ClientByIDCallsForbidden(id: int, load: LoadResult)
    ensures var r := Request(map["Authorization" := ["Bearer your_generated_token"]], DataPrefix + Strconv.Itoa(id));
      HasDataPrefix(r.path) && Serve(DataByIDRoute, load, r) == Error("Forbidden", StatusForbidden)
  {
  }

  /** A store with ids 1 and 2 asked for /data/1, /data/999, with a wrong token, for /data/x, and with a failed load. */
  lemma TwoRecordScenario(rec1: Data, rec2: Data)
    requires rec1.id == 1 && rec2.id == 2
    ensures var good := map["Authorization" := ["robel"]];
      var bad := map["Authorization" := ["wrong"]];
      && Serve(DataByIDRoute, Loaded([rec1, rec2]), Request(good, "/data/1")) == Response(StatusOK, Record(rec1))
      && Serve(DataByIDRoute, Loaded([rec1, rec2]), Request(good, "/data/999")).status == StatusNotFound
      && Serve(DataByIDRoute, Loaded([rec1, rec2]), Request(bad, "/data/1")).status == StatusForbidden
      && Serve(DataByIDRoute, Loaded([rec1, rec2]), Request(good, "/data/x")).status == StatusBadRequest
      && Serve(DataRoute, LoadFailed, Request(good, "/data")).status == StatusInternalServerError
      && Serve(DataByIDRoute, LoadFailed, Request(good, "/data/1")).status == StatusInternalServerError
  {
    var good := map["Authorization" := ["robel"]];
    var bad := map["Authorization" := ["wrong"]];
    assert HeaderGet(good, "Authorization") == "robel";
    assert HeaderGet(bad, "Authorization") == "wrong";
    ClientPathParses(1, good);
    ClientPathParses(999, good);
    assert Strconv.Itoa(1) == "1";
    assert Strconv.Itoa(999) == "999";
    assert IDText(Request(good, "/data/x")) == "x";
    assert FirstMatch([rec1, rec2], 999) == None;
  }

  /** AuthMiddleware on a mismatched token answers 403 "Forbidden" without consulting `next`. */
  lemma AuthMiddlewareIgnoresNext(next1: Request --> Response, next2: Request --> Response, r: Request)
    requires !Authorized(r)
    ensures AuthMiddleware(next1, r) == AuthMiddleware(next2, r) == Error("Forbidden", StatusForbidden)
  {
  }

  /** handleDataRequest: 200 with the loaded list exactly when the load succeeded, else the 500 text. */
  lemma DataResponseFollowsLoad(load: LoadResult)
    ensures var resp := DataResponse(load);
      && (resp.status == StatusOK <==> load.Loaded?)
      && (load.Loaded? ==> resp.payload == Records(load.records))
      && (load.LoadFailed? ==> resp == Error("Failed to read data", StatusInternalServerError))
  {
  }

  /** handleDataByIDRequest: the four outcomes, in the order the handler checks them. */
  lemma DataByIDResponseOutcomes(load: LoadResult, r: Request)
    requires HasDataPrefix(r.path)
    ensures var resp := DataByIDResponse(load, r);
      var parsed := Strconv.Atoi(IDText(r));
      && (parsed.None? ==> resp == Error("Invalid ID", StatusBadRequest))
      && (parsed.Some? && load.LoadFailed? ==> resp == Error("Failed to read data", StatusInternalServerError))
      && (parsed.Some? && load.Loaded? ==>
            (resp.status == StatusOK <==> exists i :: 0 <= i < |load.records| && load.records[i].id == parsed.value))
      && (parsed.Some? && load.Loaded? && resp.status != StatusOK ==> resp == Error("Data not found", StatusNotFound))
  {
    var parsed := Strconv.Atoi(IDText(r));
    if parsed.Some? && load.Loaded? {
      var m := FirstMatch(load.records, parsed.value);
      if m.Some? {
        assert IsFirstMatch(load.records, parsed.value, m.value);
      }
    }
  }

  /** A file that cannot be read, or whose bytes do not decode, gives 500 on both routes. */
  lemma StoreErrorIsServerError(route: Route, fileBytes: Option<seq<byte>>, unmarshal: seq<byte> -> Option<seq<Data>>, r: Request)
    requires Routable(route, r) && Authorized(r) && IDParses(route, r)
    requires fileBytes.None? || unmarshal(fileBytes.value).None?
    ensures Serve(route, ReadAllJSONData(fileBytes, unmarshal), r) == Error("Failed to read data", StatusInternalServerError)
  {
  }

  /** A file that reads and decodes is returned by "/data" as decoded: 200 with those records. */
  lemma ListAllFromFile(bytes: seq<byte>, unmarshal: seq<byte> -> Option<seq<Data>>, r: Request)
    requires Authorized(r) && unmarshal(bytes).Some?
    ensures Serve(DataRoute, ReadAllJSONData(Some(bytes), unmarshal), r) == Response(StatusOK, Records(unmarshal(bytes).value))
  {
  }
}
