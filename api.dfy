/** The high-level client (vxcube_api/api.py): turning answers into objects,
    logging in, and routing the sample and analysis queries. */
module Api {
  import opened Values
  import Objects
  import Utils
  import RawApi

  // ---------------------------------------------------------------------------
  // return_objects

  /** What a decorated call returns: one object for a mapping, a list of objects
      for a list, None for anything else. */
  datatype Built<O> = One(obj: O) | Many(objs: seq<O>) | Nothing

  /** The keyword arguments of `obj(**kw)`: with `add_raw_api`, the shared
      `_raw_api` is written into the payload first. */
  function CreateArgs(es: Entries, addRawApi: bool, raw: Value): Entries {
    if addRawApi then SetKey(es, Objects.RawApiSlot, raw) else es
  }

  /** Every constructed object gets the same shared reference when `add_raw_api` is
      set, and none otherwise; the other fields are passed unchanged. */
  lemma {:induction false} CreateArgsSpec(es: Entries, addRawApi: bool, raw: Value)
    ensures addRawApi ==> Lookup(CreateArgs(es, addRawApi, raw), Objects.RawApiSlot) == Some(raw)
    ensures forall k :: k != Objects.RawApiSlot ==> Lookup(CreateArgs(es, addRawApi, raw), k) == Lookup(es, k)
    ensures !addRawApi ==> CreateArgs(es, addRawApi, raw) == es
  {
  }

  /** `create_obj(item)`: only a mapping can receive `_raw_api` or be unpacked. */
  function CreateObj<O>(make: Entries -> Result<O>, addRawApi: bool, raw: Value, item: Value): Result<O> {
    match item
    case Object(es) => make(CreateArgs(es, addRawApi, raw))
    case _ => Err(TypeError("argument after ** must be a mapping"))
  }

  /** The list branch: one object per element, in order, stopping at the first
      element that fails. */
  function CreateAll<O>(make: Entries -> Result<O>, addRawApi: bool, raw: Value, items: seq<Value>): (r: Result<seq<O>>)
    ensures r.Ok? ==> |r.value| == |items|
    decreases |items|
  {
    if items == [] then Ok([])
    else
      match CreateAll(make, addRawApi, raw, items[..|items| - 1])
      case Err(e) => Err(e)
      case Ok(objs) =>
        match CreateObj(make, addRawApi, raw, items[|items| - 1])
        case Err(e) => Err(e)
        case Ok(o) => Ok(objs + [o])
  }

  /** Object `i` is built from element `i`; the list succeeds exactly when every
      element is a mapping that builds. */
  lemma {:induction false} CreateAllSpec<O>(make: Entries -> Result<O>, addRawApi: bool, raw: Value, items: seq<Value>)
    ensures CreateAll(make, addRawApi, raw, items).Ok? <==>
            forall i :: 0 <= i < |items| ==> CreateObj(make, addRawApi, raw, items[i]).Ok?
    ensures CreateAll(make, addRawApi, raw, items).Ok? ==>
            forall i :: 0 <= i < |items| ==> (items[i].Object? &&
              CreateAll(make, addRawApi, raw, items).value[i] == CreateObj(make, addRawApi, raw, items[i]).value)
    decreases |items|
  {
    if items != [] {
      var init := items[..|items| - 1];
      CreateAllSpec(make, addRawApi, raw, init);
      assert forall i :: 0 <= i < |init| ==> init[i] == items[i];
    }
  }

  /** `return_objects(obj, add_raw_api)` applied to the decorated call's result. */
  function Hydrate<O>(make: Entries -> Result<O>, addRawApi: bool, raw: Value, data: Value): Result<Built<O>> {
    match data
    case Object(es) =>
      (match make(CreateArgs(es, addRawApi, raw))
       case Err(e) => Err(e)
       case Ok(o) => Ok(One(o)))
    case List(items) =>
      (match CreateAll(make, addRawApi, raw, items)
       case Err(e) => Err(e)
       case Ok(objs) => Ok(Many(objs)))
    case _ => Ok(Nothing)
  }

  /** A mapping makes exactly one object; a list makes one object per element, in
      order; anything else makes None, whatever the constructor would do. */
  lemma {:induction false} HydrateSpec<O>(make: Entries -> Result<O>, other: Entries -> Result<O>, addRawApi: bool, raw: Value, data: Value)
    ensures data.Object? && make(CreateArgs(data.entries, addRawApi, raw)).Ok? ==>
              Hydrate(make, addRawApi, raw, data) == Ok(One(make(CreateArgs(data.entries, addRawApi, raw)).value))
    ensures data.List? && Hydrate(make, addRawApi, raw, data).Ok? ==>
              var objs := Hydrate(make, addRawApi, raw, data).value;
              && objs.Many? && |objs.objs| == |data.items|
              && forall i :: 0 <= i < |data.items| ==> (data.items[i].Object? &&
                   make(CreateArgs(data.items[i].entries, addRawApi, raw)).Ok? &&
                   objs.objs[i] == make(CreateArgs(data.items[i].entries, addRawApi, raw)).value)
    ensures !data.Object? && !data.List? ==>
              Hydrate(make, addRawApi, raw, data) == Ok(Nothing) == Hydrate(other, addRawApi, raw, data)
  {
    if data.List? {
      CreateAllSpec(make, addRawApi, raw, data.items);
    }
  }

  /** The decorator's wrapper. */
  method ReturnObjects<O>(make: Entries -> Result<O>, addRawApi: bool, raw: Value, data: Value)
    returns (r: Result<Built<O>>)
    ensures r == Hydrate(make, addRawApi, raw, data)
  {
    if data.Object? {
      var made := make(CreateArgs(data.entries, addRawApi, raw));
      if made.Err? {
        return Err(made.error);
      }
      return Ok(One(made.value));
    }
    if !data.List? {
      return Ok(Nothing);
    }
    var objs := CreateEach(make, addRawApi, raw, data.items);
    if objs.Err? {
      return Err(objs.error);
    }
    return Ok(Many(objs.value));
  }

  /** The list branch's append loop. */
  method CreateEach<O>(make: Entries -> Result<O>, addRawApi: bool, raw: Value, items: seq<Value>)
    returns (r: Result<seq<O>>)
    ensures r == CreateAll(make, addRawApi, raw, items)
  {
    var results: seq<O> := [];
    var i := 0;
    assert items[..0] == [];
    while i < |items|
      invariant 0 <= i <= |items|
      invariant CreateAll(make, addRawApi, raw, items[..i]) == Ok(results)
    {
      var made := CreateObj(make, addRawApi, raw, items[i]);
      CreateAllStep(make, addRawApi, raw, items, i, results);
      if made.Err? {
        return Err(made.error);
      }
      results := results + [made.value];
      i := i + 1;
    }
    assert items[..i] == items;
    return Ok(results);
  }

  /** One turn of the append loop: an element that fails ends the whole list with
      its error; one that builds extends the prefix's objects. */
  lemma {:induction false} CreateAllStep<O>(make: Entries -> Result<O>, addRawApi: bool, raw: Value, items: seq<Value>, i: nat,
                         results: seq<O>)
    requires i < |items| && CreateAll(make, addRawApi, raw, items[..i]) == Ok(results)
    ensures var made := CreateObj(make, addRawApi, raw, items[i]);
      && (made.Err? ==> CreateAll(make, addRawApi, raw, items) == Err(made.error))
      && (made.Ok? ==> CreateAll(make, addRawApi, raw, items[..i + 1]) == Ok(results + [made.value]))
  {
    var p := items[..i + 1];
    assert p[..|p| - 1] == items[..i] && p[|p| - 1] == items[i];
    if CreateObj(make, addRawApi, raw, items[i]).Err? {
      CreateAllStops(make, addRawApi, raw, items, i + 1);
    }
  }

  lemma {:induction false} CreateAllStops<O>(make: Entries -> Result<O>, addRawApi: bool, raw: Value, items: seq<Value>, n: nat)
    requires 0 < n <= |items| && CreateAll(make, addRawApi, raw, items[..n]).Err?
    ensures CreateAll(make, addRawApi, raw, items) == CreateAll(make, addRawApi, raw, items[..n])
    decreases |items| - n
  {
    if n < |items| {
      assert items[..n + 1][..n] == items[..n];
      CreateAllStops(make, addRawApi, raw, items, n + 1);
    } else {
      assert items[..n] == items;
    }
  }

  /** `Sample(**kw)`. */
  function MakeSample(kw: Entries): Result<Objects.Attrs> {
    Ok(Objects.Construct(Objects.SampleSchema, kw))
  }

  /** `Analysis(**kw)`. */
  function MakeAnalysis(kw: Entries): Result<Objects.AnalysisState> {
    Objects.NewAnalysis(kw)
  }

  /** Every sample of a listing holds the one shared `_raw_api`. */
  lemma {:induction false} SamplesShareRawApi(raw: Value, items: seq<Value>)
    requires Hydrate(MakeSample, true, raw, List(items)).Ok?
    ensures var objs := Hydrate(MakeSample, true, raw, List(items)).value.objs;
      forall i :: 0 <= i < |objs| ==> Objects.RawApiSlot in objs[i] && objs[i][Objects.RawApiSlot] == raw
  {
    HydrateSpec(MakeSample, MakeSample, true, raw, List(items));
    forall i | 0 <= i < |items|
      ensures var o := Objects.Construct(Objects.SampleSchema, CreateArgs(items[i].entries, true, raw));
              Objects.RawApiSlot in o && o[Objects.RawApiSlot] == raw
    {
      var kw := CreateArgs(items[i].entries, true, raw);
      CreateArgsSpec(items[i].entries, true, raw);
      Objects.UpdatedAt(Objects.SampleSchema, map[], kw);
    }
  }

  // ---------------------------------------------------------------------------
  // login

  /** The login payload: the given credentials without the None ones. */
  function LoginPayload(login: Value, password: Value, newKey: Value): Entries {
    Utils.FilterData([("login", login), ("password", password), ("new_key", newKey)])
  }

  /** A credential is sent exactly when it is not None; the default `new_key=False`
      is always sent. */
  lemma {:induction false} LoginPayloadSpec(login: Value, password: Value, newKey: Value)
    ensures ("login", login) in LoginPayload(login, password, newKey) <==> login != Null
    ensures ("password", password) in LoginPayload(login, password, newKey) <==> password != Null
    ensures ("new_key", Bool(false)) in LoginPayload(login, password, Bool(false))
    ensures forall e :: e in LoginPayload(login, password, newKey) ==> e.1 != Null
  {
    Utils.FilterDataDropsExactlyNone([("login", login), ("password", password), ("new_key", newKey)]);
    Utils.FilterDataDropsExactlyNone([("login", login), ("password", password), ("new_key", Bool(false))]);
  }

  /** The key a login answer carries, or why it is rejected. */
  function NewApiKey(response: Result<Value>): Result<Value> {
    match response
    case Err(e) => Err(e)
    case Ok(Object(es)) =>
      (match Lookup(es, "api_key")
       case Some(k) => Ok(k)
       case None => Err(ApiError("Incorrect server response")))
    case Ok(_) => Err(ApiError("Incorrect server response"))
  }

  /** A login is accepted exactly when the answer is a mapping holding "api_key";
      the key is then that value, whatever it is. */
  lemma {:induction false} NewApiKeySpec(response: Result<Value>)
    ensures response.Ok? ==>
              (NewApiKey(response).Ok? <==> response.value.Object? && "api_key" in KeysOf(response.value.entries))
    ensures NewApiKey(response).Ok? ==> NewApiKey(response).value == Lookup(response.value.entries, "api_key").value
    ensures response.Ok? && NewApiKey(response).Err? ==> NewApiKey(response).error == ApiError("Incorrect server response")
    ensures response.Err? ==> NewApiKey(response) == Err(response.error)
  {
  }

  /** `VxCubeApi.login(login, password, new_key)` answered with `response`: the
      payload sent, and the exception raised, if any.  An accepted key goes
      through the `api_key` setter. */
  method Login(client: RawApi.RawClient, login: Value, password: Value, newKey: Value, response: Result<Value>)
    returns (payload: Entries, error: Option<Exception>)
    modifies client, client.request
    ensures payload == LoginPayload(login, password, newKey)
    ensures client.request == old(client.request) && client.request.defaults == old(client.request.defaults)
    ensures NewApiKey(response).Err? ==>
              error == Some(NewApiKey(response).error) && client.apiKey == old(client.apiKey) &&
              client.request.headers == old(client.request.headers)
    ensures NewApiKey(response).Ok? ==>
              error == None && client.apiKey == NewApiKey(response).value &&
              client.request.headers == old(client.request.headers)["Authorization" := RawApi.Authorization(client.apiKey)]
  {
    payload := Utils.FilterData([("login", login), ("password", password), ("new_key", newKey)]);
    if response.Err? {
      return payload, Some(response.error);
    }
    if !response.value.Object? || "api_key" !in KeysOf(response.value.entries) {
      return payload, Some(ApiError("Incorrect server response"));
    }
    client.SetApiKey(Lookup(response.value.entries, "api_key").value);
    error := None;
  }

  // ---------------------------------------------------------------------------
  // samples, analyses and their iterators

  /** The request a query makes: one resource by id, or the listing with a JSON
      payload. */
  datatype Call = GetOne(id: Value) | GetList(json: Entries)

  const SampleFilters: seq<string> := ["count", "offset", "md5", "sha1", "sha256", "format_name", "format_group_name"]
  const AnalysisFilters: seq<string> := ["count", "offset", "format_group_name"]

  /** The filter arguments in signature order, None when not passed. */
  function Listing(args: Entries, names: seq<string>): (r: Entries)
    ensures |r| == |names| && forall i :: 0 <= i < |names| ==> r[i] == (names[i], Get(args, names[i], Null))
  {
    seq(|names|, i requires 0 <= i < |names| => (names[i], Get(args, names[i], Null)))
  }

  /** A keyword the method does not declare. */
  predicate Unexpected(idName: string, filters: seq<string>, k: string) {
    k != idName && k !in filters
  }

  /** `samples(...)` and `analyses(...)` called with keyword arguments `args`. */
  function Route(idName: string, filters: seq<string>, args: Entries): Result<Call> {
    if exists i :: 0 <= i < |args| && Unexpected(idName, filters, args[i].0) then
      Err(TypeError("got an unexpected keyword argument"))
    else if Truthy(Get(args, idName, Null)) then Ok(GetOne(Get(args, idName, Null)))
    else Ok(GetList(Utils.FilterData(Listing(args, filters))))
  }

  /** A truthy id fetches that one resource; otherwise the listing payload holds
      exactly the filters passed with a value other than None. */
  lemma {:induction false} RouteSpec(idName: string, filters: seq<string>, args: Entries)
    requires forall i :: 0 <= i < |args| ==> !Unexpected(idName, filters, args[i].0)
    ensures Truthy(Get(args, idName, Null)) ==> Route(idName, filters, args) == Ok(GetOne(Get(args, idName, Null)))
    ensures !Truthy(Get(args, idName, Null)) ==>
              && Route(idName, filters, args).Ok? && Route(idName, filters, args).value.GetList?
              && forall e :: e in Route(idName, filters, args).value.json <==>
                               e.0 in filters && e.1 == Get(args, e.0, Null) && e.1 != Null
  {
    var l := Listing(args, filters);
    Utils.FilterDataDropsExactlyNone(l);
    forall e: (string, Value) | e.0 in filters && e.1 == Get(args, e.0, Null) ensures e in l {
      var i :| 0 <= i < |filters| && filters[i] == e.0;
      assert l[i] == e;
    }
  }

  /** Any other keyword is refused before a request is made. */
  lemma {:induction false} RouteRejectsUnknown(idName: string, filters: seq<string>, args: Entries, i: nat)
    requires i < |args| && Unexpected(idName, filters, args[i].0)
    ensures Route(idName, filters, args).Err?
  {
  }

  /** The page size of the `*_iter` variants when none is given. */
  const DefaultPageSize := 100

  function PageSize(countPerRequest: Option<int>): int {
    if countPerRequest.Some? then countPerRequest.value else DefaultPageSize
  }

  /** The keyword arguments of the query behind one page. */
  function IterArgs(req: Utils.PageRequest): Entries {
    [("count", Int(req.count)), ("offset", req.offset)] + req.filters
  }

  /** A listing answer as the pagination loop sees it: the payload of every
      object, in order, once every object is built; a single object or None is not
      iterable. */
  function ObjectPage<O>(make: Entries -> Result<O>, raw: Value, data: Value): Result<Value> {
    match Hydrate(make, true, raw, data)
    case Err(e) => Err(e)
    case Ok(Many(_)) =>
      var items := data.items;
      Ok(List(seq(|items|, i requires 0 <= i < |items| =>
        if items[i].Object? then Object(CreateArgs(items[i].entries, true, raw)) else Null)))
    case Ok(_) => Ok(Null)
  }

  /** One page of an iterator: the query, then the answer turned into objects. */
  function FetchPage<O>(idName: string, filters: seq<string>, make: Entries -> Result<O>, raw: Value,
                        server: Call -> Result<Value>, req: Utils.PageRequest): Result<Value> {
    match Route(idName, filters, IterArgs(req))
    case Err(e) => Err(e)
    case Ok(call) =>
      match server(call)
      case Err(e) => Err(e)
      case Ok(data) => ObjectPage(make, raw, data)
  }

  function PageFetcher<O>(idName: string, filters: seq<string>, make: Entries -> Result<O>, raw: Value,
                          server: Call -> Result<Value>): Utils.PageRequest -> Result<Value> {
    req => FetchPage(idName, filters, make, raw, server, req)
  }

  /** `samples_iter` / `analyses_iter`: the id argument is dropped, then the
      bare-list pagination over the query. */
  method QueryIter<O>(idName: string, filters: seq<string>, make: Entries -> Result<O>, raw: Value,
                      server: Call -> Result<Value>, countPerRequest: Option<int>, kwargs: Entries, fuel: nat)
    returns (yielded: seq<Value>, requests: seq<Utils.PageRequest>, stop: Utils.Stop)
    ensures var kw := RemoveKey(kwargs, idName);
      Utils.Pages(yielded, requests, stop) ==
      Utils.Paginate(PageFetcher(idName, filters, make, raw, server), PageSize(countPerRequest),
                     Utils.StartOffset(kw), Utils.PassThrough(kw), None, fuel)
  {
    var kw := RemoveKey(kwargs, idName);
    yielded, requests, stop := Utils.Iterator(PageFetcher(idName, filters, make, raw, server),
                                              PageSize(countPerRequest), None, kw, fuel);
  }

  /** A page's query never carries the id when the filters do not. */
  lemma {:induction false} IterArgsLacksId(req: Utils.PageRequest, idName: string)
    requires idName != "count" && idName != "offset" && idName !in KeysOf(req.filters)
    ensures Lookup(IterArgs(req), idName) == None
  {
    var args := IterArgs(req);
    forall j | 0 <= j < |args| ensures args[j].0 != idName {
      if j >= 2 {
        assert args[j] == req.filters[j - 2];
      }
    }
  }

  /** Every page of an iterator is a listing query of the page size, even when the
      caller passed an id: the id never reaches the query. */
  lemma {:induction false} IterOnlyLists<O>(idName: string, filters: seq<string>, make: Entries -> Result<O>, raw: Value,
                         server: Call -> Result<Value>, countPerRequest: Option<int>, kwargs: Entries, fuel: nat)
    requires idName != "count" && idName != "offset"
    ensures var kw := RemoveKey(kwargs, idName);
      var p := Utils.Paginate(PageFetcher(idName, filters, make, raw, server), PageSize(countPerRequest),
                              Utils.StartOffset(kw), Utils.PassThrough(kw), None, fuel);
      forall i :: 0 <= i < |p.requests| ==>
        && p.requests[i].count == PageSize(countPerRequest)
        && Lookup(IterArgs(p.requests[i]), idName) == None
        && !(Route(idName, filters, IterArgs(p.requests[i])).Ok? &&
             Route(idName, filters, IterArgs(p.requests[i])).value.GetOne?)
  {
    var kw := RemoveKey(kwargs, idName);
    RequestsLackId(PageFetcher(idName, filters, make, raw, server), PageSize(countPerRequest), kw, idName, filters, fuel);
  }

  /** Whatever the pages hold, every request of a pagination over `kw` has the page
      size and lacks the id that `kw` lacks. */
  lemma {:induction false} RequestsLackId(fetch: Utils.PageRequest -> Result<Value>, count: int, kw: Entries, idName: string,
                       filters: seq<string>, fuel: nat)
    requires idName != "count" && idName != "offset" && idName !in KeysOf(kw)
    ensures var p := Utils.Paginate(fetch, count, Utils.StartOffset(kw), Utils.PassThrough(kw), None, fuel);
      forall i :: 0 <= i < |p.requests| ==>
        && p.requests[i].count == count
        && Lookup(IterArgs(p.requests[i]), idName) == None
        && !(Route(idName, filters, IterArgs(p.requests[i])).Ok? &&
             Route(idName, filters, IterArgs(p.requests[i])).value.GetOne?)
  {
    var sent := Utils.PassThrough(kw);
    var p := Utils.Paginate(fetch, count, Utils.StartOffset(kw), sent, None, fuel);
    assert idName !in KeysOf(sent);
    forall i | 0 <= i < |p.requests|
      ensures p.requests[i].count == count && Lookup(IterArgs(p.requests[i]), idName) == None
    {
      Utils.RequestShape(fetch, count, Utils.StartOffset(kw), sent, None, fuel, i);
      IterArgsLacksId(p.requests[i], idName);
    }
  }

  /** `samples(...)` with the shared `_raw_api`: the routed query answered by the
      server and turned into sample objects. */
  function Samples(args: Entries, raw: Value, server: Call -> Result<Value>): Result<Built<Objects.Attrs>> {
    match Route("sample_id", SampleFilters, args)
    case Err(e) => Err(e)
    case Ok(call) =>
      match server(call)
      case Err(e) => Err(e)
      case Ok(data) => Hydrate(MakeSample, true, raw, data)
  }

  /** `analyses(...)`, likewise with analysis objects. */
  function Analyses(args: Entries, raw: Value, server: Call -> Result<Value>): Result<Built<Objects.AnalysisState>> {
    match Route("analysis_id", AnalysisFilters, args)
    case Err(e) => Err(e)
    case Ok(call) =>
      match server(call)
      case Err(e) => Err(e)
      case Ok(data) => Hydrate(MakeAnalysis, true, raw, data)
  }

  /** `samples(...)` asks the server for the routed call: one sample by id, or the
      listing, and every sample it builds holds the shared `_raw_api`. */
  lemma {:induction false} SamplesSpec(args: Entries, raw: Value, server: Call -> Result<Value>)
    requires forall i :: 0 <= i < |args| ==> !Unexpected("sample_id", SampleFilters, args[i].0)
    ensures var id := Get(args, "sample_id", Null);
      Truthy(id) && server(GetOne(id)).Ok? ==>
        Samples(args, raw, server) == Hydrate(MakeSample, true, raw, server(GetOne(id)).value)
    ensures var id := Get(args, "sample_id", Null);
      Truthy(id) && server(GetOne(id)).Err? ==> Samples(args, raw, server) == Err(server(GetOne(id)).error)
    ensures Samples(args, raw, server).Ok? && Samples(args, raw, server).value.Many? ==>
              var objs := Samples(args, raw, server).value.objs;
              forall i :: 0 <= i < |objs| ==> Objects.RawApiSlot in objs[i] && objs[i][Objects.RawApiSlot] == raw
  {
    RouteSpec("sample_id", SampleFilters, args);
    var call := Route("sample_id", SampleFilters, args).value;
    if Samples(args, raw, server).Ok? && Samples(args, raw, server).value.Many? {
      var data := server(call).value;
      assert data.List?;
      assert data == List(data.items);
      SamplesShareRawApi(raw, data.items);
    }
  }

  /** `analyses(...)` fetches one analysis by a truthy id, and otherwise the listing of
      the passed, non-None filters. */
  lemma {:induction false} AnalysesSpec(args: Entries, raw: Value, server: Call -> Result<Value>)
    requires forall i :: 0 <= i < |args| ==> !Unexpected("analysis_id", AnalysisFilters, args[i].0)
    ensures var id := Get(args, "analysis_id", Null);
      Truthy(id) && server(GetOne(id)).Ok? ==>
        Analyses(args, raw, server) == Hydrate(MakeAnalysis, true, raw, server(GetOne(id)).value)
    ensures var id := Get(args, "analysis_id", Null);
      !Truthy(id) ==>
        exists json: Entries ::
          && Route("analysis_id", AnalysisFilters, args) == Ok(GetList(json))
          && (forall e :: e in json <==> e.0 in AnalysisFilters && e.1 == Get(args, e.0, Null) && e.1 != Null)
          && (server(GetList(json)).Ok? ==>
                Analyses(args, raw, server) == Hydrate(MakeAnalysis, true, raw, server(GetList(json)).value))
  {
    RouteSpec("analysis_id", AnalysisFilters, args);
  }

  /** `samples(sample_id=5, md5="m")` fetches sample 5 whatever filters come with it. */
  lemma {:induction false} SamplesByIdExample()
    ensures Route("sample_id", SampleFilters, [("sample_id", Int(5)), ("md5", Str("m"))]) == Ok(GetOne(Int(5)))
  {
    var a1 := [("sample_id", Int(5)), ("md5", Str("m"))];
    assert a1[..1][..0] == [] && a1[..1] == [a1[0]];
    assert Get(a1, "sample_id", Null) == Int(5);
  }

  /** `analyses(format_group_name="pe", offset=None)` lists with the payload
      `{"format_group_name": "pe"}`. */
  lemma {:induction false} AnalysesListingExample()
    ensures Route("analysis_id", AnalysisFilters, [("format_group_name", Str("pe")), ("offset", Null)])
            == Ok(GetList([("format_group_name", Str("pe"))]))
  {
    var a2 := [("format_group_name", Str("pe")), ("offset", Null)];
    PeArgsExpected();
    PeListingFiltered();
    assert a2[..1][..0] == [] && a2[..1] == [a2[0]];
    assert Lookup(a2, "analysis_id") == None;
  }

  lemma {:induction false} PeArgsExpected()
    ensures var a2 := [("format_group_name", Str("pe")), ("offset", Null)];
      !exists i :: 0 <= i < |a2| && Unexpected("analysis_id", AnalysisFilters, a2[i].0)
  {
  }

  lemma {:induction false} PeListingFiltered()
    ensures Utils.FilterData(Listing([("format_group_name", Str("pe")), ("offset", Null)], AnalysisFilters))
            == [("format_group_name", Str("pe"))]
  {
    var a2 := [("format_group_name", Str("pe")), ("offset", Null)];
    assert a2[..1][..0] == [] && a2[..1] == [a2[0]];
    assert Lookup(a2, "count") == None && Lookup(a2, "offset") == Some(Null);
    assert Lookup(a2, "format_group_name") == Some(Str("pe"));
    var l := Listing(a2, AnalysisFilters);
    assert l == [("count", Null), ("offset", Null), ("format_group_name", Str("pe"))];
    assert l[..1][..0] == [] && l[..2][..1] == l[..1] && l[..3][..2] == l[..2] && l[..3] == l;
    assert Utils.FilterData(l[..1]) == [];
    assert Utils.FilterData(l[..2]) == [];
    assert Utils.FilterData(l) == [] + [l[2]];
  }
}
