/** Building a request and reading the server's answer (vxcube_api/raw_api.py).

    The transport itself is not modelled: `Request` returns what it would hand to the
    transport, and the transport's answer is an input. */
module RawApi {
  import opened Values

  /** A header dictionary. */
  type Headers = map<string, string>

  /** The call `send_request(method, url, params=..., headers=..., data=..., **kwargs)`. */
  datatype Sent = Sent(verb: string, url: string, params: Value, headers: Headers, data: Value, kwargs: Entries)

  /** The transport's answer: `response.ok`, `response.status_code`, what
      `response.json()` returns (None when it raises ValueError) and `response.text`. */
  datatype Response = Response(ok: bool, status: int, json: Option<Value>, text: string)

  // ---------------------------------------------------------------------------
  // Headers and keyword arguments

  /** `dict(self.headers)` updated with the per-call headers, if any. */
  function MergedHeaders(stored: Headers, call: Option<Headers>): (r: Headers)
    ensures forall k :: k in r <==> k in stored || (call.Some? && k in call.value)
    ensures forall k :: k in r ==> r[k] == if call.Some? && k in call.value then call.value[k] else stored[k]
  {
    match call
    case None => stored
    case Some(h) => stored + h
  }

  /** The `setdefault` loop over the stored default keyword arguments. */
  function WithDefaults(kwargs: Entries, defaults: Entries): Entries
    decreases |defaults|
  {
    if defaults == [] then kwargs
    else
      var last := defaults[|defaults| - 1];
      SetDefault(WithDefaults(kwargs, defaults[..|defaults| - 1]), last.0, last.1)
  }

  /** A default reaches the call only for a keyword the caller did not pass; every
      keyword the caller passed keeps its value. */
  lemma {:induction false} WithDefaultsLookup(kwargs: Entries, defaults: Entries)
    requires DistinctKeys(defaults)
    ensures KeysOf(WithDefaults(kwargs, defaults)) == KeysOf(kwargs) + KeysOf(defaults)
    ensures forall k :: Lookup(WithDefaults(kwargs, defaults), k) ==
                        if k in KeysOf(kwargs) then Lookup(kwargs, k) else Lookup(defaults, k)
    decreases |defaults|
  {
    if defaults != [] {
      var init := defaults[..|defaults| - 1];
      var last := defaults[|defaults| - 1];
      assert DistinctKeys(init);
      WithDefaultsLookup(kwargs, init);
      SetDefaultLookup(WithDefaults(kwargs, init), last.0, last.1);
      KeysOfSnoc(defaults);
      assert last.0 !in KeysOf(init);
    }
  }

  /** The `setdefault` loop itself. */
  method ApplyDefaults(kwargs: Entries, defaults: Entries) returns (r: Entries)
    ensures r == WithDefaults(kwargs, defaults)
  {
    r := kwargs;
    var i := 0;
    while i < |defaults|
      invariant 0 <= i <= |defaults|
      invariant r == WithDefaults(kwargs, defaults[..i])
    {
      assert defaults[..i + 1][..i] == defaults[..i];
      var (name, value) := defaults[i];
      if name !in KeysOf(r) {
        r := r + [(name, value)];
      }
      i := i + 1;
    }
    assert defaults[..i] == defaults;
  }

  /** Whether the call asks for the body to be saved to a file. */
  predicate WantsFile(kwargs: Entries) {
    Truthy(Get(kwargs, "output_file", Null))
  }

  /** The keyword arguments passed on to the transport: `output_file` is taken out,
      `stream=True` is added for a file download unless given, then the defaults. */
  function Prepared(kwargs: Entries, defaults: Entries): Entries {
    var kw := RemoveKey(kwargs, "output_file");
    WithDefaults(if WantsFile(kwargs) then SetDefault(kw, "stream", Bool(true)) else kw, defaults)
  }

  /** A file download streams unless the caller said otherwise; without a file the
      caller's `stream` (or a default) is passed as is; the caller's other keywords
      are passed unchanged. */
  lemma {:induction false} PreparedSpec(kwargs: Entries, defaults: Entries)
    requires DistinctKeys(defaults)
    ensures WantsFile(kwargs) ==>
              Lookup(Prepared(kwargs, defaults), "stream") ==
              if "stream" in KeysOf(kwargs) then Lookup(kwargs, "stream") else Some(Bool(true))
    ensures !WantsFile(kwargs) ==>
              Lookup(Prepared(kwargs, defaults), "stream") ==
              if "stream" in KeysOf(kwargs) then Lookup(kwargs, "stream") else Lookup(defaults, "stream")
    ensures forall k :: k != "output_file" && k in KeysOf(kwargs) ==>
              Lookup(Prepared(kwargs, defaults), k) == Lookup(kwargs, k)
    ensures "output_file" !in KeysOf(defaults) ==> "output_file" !in KeysOf(Prepared(kwargs, defaults))
  {
    var kw := RemoveKey(kwargs, "output_file");
    SetDefaultLookup(kw, "stream", Bool(true));
    var kw2 := if WantsFile(kwargs) then SetDefault(kw, "stream", Bool(true)) else kw;
    WithDefaultsLookup(kw2, defaults);
  }

  // ---------------------------------------------------------------------------
  // Reading the answer

  /** `str(v)` of each item of a list, joined with "; "; a string as is; anything
      else is unknown. */
  function FieldInfo(v: Value): string {
    match v
    case List(xs) => Join("; ", seq(|xs|, k requires 0 <= k < |xs| => PyStr(xs[k])))
    case Str(s) => s
    case _ => "<UNKNOWN>"
  }

  function FieldLine(key: string, v: Value): string {
    "[" + key + "] " + FieldInfo(v)
  }

  /** The per-field explanation of a 400 answer: one "[key] info" line per field,
      joined with tabs. */
  function Summary(fields: Entries): string {
    Join("\t", seq(|fields|, i requires 0 <= i < |fields| => FieldLine(fields[i].0, fields[i].1)))
  }

  /** The loop that builds the per-field explanation. */
  method SummarizeFields(fields: Entries) returns (msg: string)
    ensures msg == Summary(fields)
  {
    var messages: seq<string> := [];
    var i := 0;
    while i < |fields|
      invariant 0 <= i <= |fields| && |messages| == i
      invariant forall j :: 0 <= j < i ==> messages[j] == FieldLine(fields[j].0, fields[j].1)
    {
      var (key, value) := fields[i];
      var info := "<UNKNOWN>";
      if value.List? {
        info := Join("; ", seq(|value.items|, k requires 0 <= k < |value.items| => PyStr(value.items[k])));
      } else if value.Str? {
        info := value.s;
      }
      messages := messages + ["[" + key + "] " + info];
      i := i + 1;
    }
    assert messages == seq(|fields|, i requires 0 <= i < |fields| => FieldLine(fields[i].0, fields[i].1));
    msg := Join("\t", messages);
  }

  /** The message of a failed answer, by precedence: not a JSON object, its
      "error", its "message", the per-field explanation of a non-empty 400 answer,
      and otherwise "Unknown error". */
  function ErrorReason(json: Value, status: int): Value {
    match json
    case Object(es) =>
      if "error" in KeysOf(es) then Lookup(es, "error").value
      else if "message" in KeysOf(es) then Lookup(es, "message").value
      else if status == 400 && es != [] then Str(Summary(es))
      else Str("Unknown error")
    case _ => Str("Unknown error")
  }

  /** `response.json()` as `request` keeps it: never read for a file download, and
      None when the body is not JSON. */
  function JsonOf(response: Response, toFile: bool): Value {
    if toFile then Null
    else match response.json
      case None => Null
      case Some(v) => v
  }

  /** What `request` returns or raises for an answer. */
  function Decoded(response: Response, toFile: bool): (r: Result<Value>)
    ensures r.Ok? <==> response.ok
  {
    var json := JsonOf(response, toFile);
    if response.ok then
      if toFile then Ok(Null)
      else if json != Null then Ok(json)
      else if response.text != "" then Ok(Str(response.text))
      else Ok(Null)
    else
      Err(HttpError(ErrorReason(json, response.status), response.status,
                    if Truthy(json) then json else Str(response.text)))
  }

  /** A successful answer gives the JSON value when there is one, else the
      non-empty body text, else None; a file download gives None.  A failed answer
      always raises, with the status code, the message chosen by precedence, and
      the decoded answer as its body when that is truthy, the body text otherwise. */
  lemma {:induction false} DecodedSpec(response: Response, toFile: bool)
    ensures response.ok && toFile ==> Decoded(response, toFile) == Ok(Null)
    ensures response.ok && !toFile && response.json.Some? && response.json.value != Null ==>
              Decoded(response, toFile) == Ok(response.json.value)
    ensures response.ok && !toFile && (response.json.None? || response.json == Some(Null)) ==>
              Decoded(response, toFile) == if response.text == "" then Ok(Null) else Ok(Str(response.text))
    ensures !response.ok ==> (Decoded(response, toFile).error.HttpError? &&
                              Decoded(response, toFile).error.code == response.status)
    ensures !response.ok && (toFile || response.json.None? || !response.json.value.Object?) ==>
              Decoded(response, toFile).error.reason == Str("Unknown error")
    ensures !response.ok && !toFile && response.json.Some? && response.json.value.Object? ==>
              var es := response.json.value.entries;
              Decoded(response, toFile).error.reason ==
                if "error" in KeysOf(es) then Lookup(es, "error").value
                else if "message" in KeysOf(es) then Lookup(es, "message").value
                else if response.status == 400 && es != [] then Str(Summary(es))
                else Str("Unknown error")
    ensures !response.ok && (toFile || response.json.None?) ==>
              Decoded(response, toFile).error.body == Str(response.text)
    ensures !response.ok ==>
              Decoded(response, toFile).error.body ==
                (if Truthy(JsonOf(response, toFile)) then JsonOf(response, toFile) else Str(response.text))
  {
  }

  /** The explanation grows by one tab-separated line per field, in field order. */
  lemma {:induction false} SummarySnoc(fields: Entries, key: string, v: Value)
    ensures Summary([(key, v)]) == FieldLine(key, v)
    ensures fields != [] ==> Summary(fields + [(key, v)]) == Summary(fields) + "\t" + FieldLine(key, v)
  {
    var all := fields + [(key, v)];
    var lines := seq(|all|, i requires 0 <= i < |all| => FieldLine(all[i].0, all[i].1));
    assert lines[..|fields|] == seq(|fields|, i requires 0 <= i < |fields| => FieldLine(fields[i].0, fields[i].1));
  }

  /** A 400 answer `{"k1": "v1", "k2": ["v1", "v2"], "k3": {"bad": "value"}}`
      explains every field: a string as is, a list joined with "; ", a mapping as
      unknown. */
  lemma {:induction false} SummaryExample()
    ensures Summary([("k1", Str("v1")), ("k2", List([Str("v1"), Str("v2")])), ("k3", Object([("bad", Str("value"))]))])
            == "[k1] " + "v1" + "\t" + "[k2] " + "v1; v2" + "\t" + "[k3] " + "<UNKNOWN>"
  {
    var f1 := ("k1", Str("v1"));
    var f2 := ("k2", List([Str("v1"), Str("v2")]));
    var f3 := ("k3", Object([("bad", Str("value"))]));
    SummaryFirstTwo();
    SummarySnoc([f1, f2], f3.0, f3.1);
    assert [f1, f2] + [f3] == [f1, f2, f3];
  }

  lemma {:induction false} SummaryFirstTwo()
    ensures Summary([("k1", Str("v1")), ("k2", List([Str("v1"), Str("v2")]))]) == "[k1] " + "v1" + "\t" + "[k2] " + "v1; v2"
  {
    var f1 := ("k1", Str("v1"));
    var f2 := ("k2", List([Str("v1"), Str("v2")]));
    ListInfoExample();
    SummarySnoc([], f1.0, f1.1);
    SummarySnoc([f1], f2.0, f2.1);
    assert [f1] + [f2] == [f1, f2];
  }

  /** A list field is its items' texts joined with "; ". */
  lemma {:induction false} ListInfoExample()
    ensures FieldInfo(List([Str("v1"), Str("v2")])) == "v1; v2"
  {
    var items := [Str("v1"), Str("v2")];
    var infos := seq(|items|, k requires 0 <= k < |items| => PyStr(items[k]));
    assert infos == ["v1", "v2"];
    assert infos[..1] == ["v1"];
  }

  // ---------------------------------------------------------------------------
  // The request object

  /** `VxCubeApiRequest`: the stored headers and default keyword arguments. */
  class ApiRequest {
    var headers: Headers
    var defaults: Entries

    /** `VxCubeApiRequest(headers=None, **kwargs)`: absent or empty headers give an
        empty dictionary. */
    constructor (headers: Option<Headers>, defaults: Entries)
      ensures this.headers == (if headers.Some? then headers.value else map[])
      ensures this.defaults == defaults
    {
      this.headers := if headers.Some? then headers.value else map[];
      this.defaults := defaults;
    }

    /** `request(method, url, params, headers, data, **kwargs)` answered with
        `response`: what is sent, and what is returned or raised.  The stored
        headers and defaults are only read. */
    method Request(verb: string, url: string, params: Value, callHeaders: Option<Headers>, data: Value,
                   kwargs: Entries, response: Response) returns (sent: Sent, r: Result<Value>)
      ensures sent == Sent(verb, url, params, MergedHeaders(headers, callHeaders), data, Prepared(kwargs, defaults))
      ensures r == Decoded(response, WantsFile(kwargs))
    {
      var outputFile := Get(kwargs, "output_file", Null);
      var kw := RemoveKey(kwargs, "output_file");
      if Truthy(outputFile) {
        kw := SetDefault(kw, "stream", Bool(true));
      }
      var requestHeaders := headers;
      if callHeaders.Some? {
        requestHeaders := requestHeaders + callHeaders.value;
      }
      kw := ApplyDefaults(kw, defaults);
      sent := Sent(verb, url, params, requestHeaders, data, kw);

      var json := Null;
      if !Truthy(outputFile) && response.json.Some? {
        json := response.json.value;
      }
      if response.ok {
        if Truthy(outputFile) {
          return sent, Ok(Null);
        } else if json != Null {
          return sent, Ok(json);
        } else if response.text != "" {
          return sent, Ok(Str(response.text));
        }
        return sent, Ok(Null);
      }
      var msg := Str("Unknown error");
      if json.Object? {
        var found := Lookup(json.entries, "error");
        if found.Some? {
          msg := found.value;
        } else {
          found := Lookup(json.entries, "message");
          if found.Some? {
            msg := found.value;
          } else if response.status == 400 && json.entries != [] {
            var summary := SummarizeFields(json.entries);
            msg := Str(summary);
          }
        }
      }
      r := Err(HttpError(msg, response.status, if Truthy(json) then json else Str(response.text)));
    }
  }

  /** The value of the `Authorization` header for a key: "api-key " and `str(key)`. */
  function Authorization(key: Value): (r: string)
    ensures |r| >= 8 && r[..8] == "api-key "
  {
    "api-key " + PyStr(key)
  }

  lemma {:induction false} AuthorizationExamples(s: string)
    ensures Authorization(Null) == "api-key None"
    ensures Authorization(Str(s)) == "api-key " + s
  {
  }

  /** `VxCubeRawApi`: the key and the request object shared by everything bound
      to it. */
  class RawClient {
    var apiKey: Value
    var request: ApiRequest

    /** `VxCubeRawApi(api_key, ...)`: a fresh request object whose only header is
        the authorization. */
    constructor (apiKey: Value)
      ensures this.apiKey == apiKey && fresh(request)
      ensures request.headers == map["Authorization" := Authorization(apiKey)] && request.defaults == []
    {
      var req := new ApiRequest(None, []);
      this.request := req;
      this.apiKey := Null;
      new;
      SetApiKey(apiKey);
    }

    /** The `api_key` setter: the key is stored and the shared headers get the
        matching `Authorization`; every other header stays. */
    method SetApiKey(key: Value)
      modifies this, request
      ensures apiKey == key && request == old(request) && request.defaults == old(request.defaults)
      ensures request.headers == old(request.headers)["Authorization" := Authorization(key)]
    {
      apiKey := key;
      request.headers := request.headers["Authorization" := Authorization(apiKey)];
    }
  }
}
