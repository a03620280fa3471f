/**
 * The API client of the hosting platform (class `FaaStRuby::API`): how each
 * operation builds its request, which headers it sends, what it does with an
 * error response, and the classifier `parse` that turns a response into the
 * result record {response, body, errors, code}.
 *
 * The HTTP request itself is not modelled: an operation receives, as the
 * parameter `exec`, what the HTTP library did with its request (returned a
 * response, or raised an exception carrying one), and returns the request it
 * built together with its reply.
 */
module ApiClient {
  import opened Wrappers
  import opened Json

  /** The API version segment of every management URL. */
  const ApiVersion := "v2"

  /** Error statuses that are followed instead of classified. */
  const RedirectCodes: set<int> := {301, 302, 307}

  /** Statuses the classifier turns into the failure form of a record. */
  const ErrorCodes: set<int> := {401, 404, 409, 500, 408, 402, 422}

  // ------------------------------------------------------------------
  // Responses and result records
  // ------------------------------------------------------------------

  /**
   * An HTTP response: its status code, and its body as the JSON library
   * reads it (`None` when the body text is not JSON).
   */
  datatype Response = Response(code: int, body: Option<Json>)

  /** The result record. `errors` holds whatever Ruby put there, normally an array. */
  datatype Record = Record(response: Option<Response>, body: Option<Json>, errors: Json, code: int)

  /** The classifier either returns a record or raises. */
  datatype Parsed = Returns(record: Record) | Raises(exception: Exception)

  /** The failure form of a record (`error`): no response, no body. */
  function Error(errors: seq<Json>, code: int): (r: Record)
    ensures r.response.None? && r.body.None?
    ensures r.errors == JArray(errors) && r.code == code
  {
    Record(None, None, JArray(errors), code)
  }

  /** A failure carrying one message: `text` followed by the body's `error` value. */
  function Detailed(text: string, body: Json, code: int): (p: Parsed)
    ensures p.Returns? <==> body.JObject? || body.JString?
    ensures p.Raises? ==> p.exception in {NoMethodError, TypeError}
    ensures p.Returns? ==> p.record.response.None? && p.record.body.None? && p.record.code == code
    ensures p.Returns? ==> p.record.errors.JArray? && |p.record.errors.elems| == 1
    ensures body.JObject? ==>
      p == Returns(Error([JString(text + if "error" in body.fields then ToS(body.fields["error"]) else "")], code))
    ensures body.JString? ==>
      p == Returns(Error([JString(text + if Contains(body.s, "error") then "error" else "")], code))
  {
    match Index(body, "error")
    case Value(detail) => Returns(Error([JString(text + ToS(detail))], code))
    case Raise(e) => Raises(e)
  }

  /**
   * The 422 message list: the status line, then the body's `error` value if
   * it is truthy, then the elements of its `errors` value if that is truthy
   * (which must then be an array).
   */
  function UnprocessableErrors(body: Json): (r: Eval<seq<Json>>)
    ensures !(body.JObject? || body.JString?) ==> r.Raise?
    ensures r.Raise? ==> r.exception in {NoMethodError, TypeError}
    ensures r.Value? ==> |r.value| >= 1 && r.value[0] == JString("(422) Unprocessable Entity")
    ensures body.JObject? && "error" !in body.fields && "errors" !in body.fields ==>
      r == Value([JString("(422) Unprocessable Entity")])
  {
    match Index(body, "error")
    case Raise(e) => Raise(e)
    case Value(detail) =>
      var head := JString("(422) Unprocessable Entity");
      var errors := if Truthy(detail) then [head, detail] else [head];
      match Index(body, "errors")
      case Raise(e) => Raise(e)
      case Value(more) =>
        if !Truthy(more) then Value(errors)
        else if more.JArray? then Value(errors + more.elems)
        else Raise(TypeError)
  }

  /**
   * The classifier `parse` as a specification. The body is never read on 500
   * and 408; on every other status a body that is not JSON raises.
   */
  function Classify(response: Response): (p: Parsed)
    ensures response.code == 500 ==> p == Returns(Error([JString("(500) Error")], 500))
    ensures response.code == 408 ==> p == Returns(Error([JString("(408) Request Timeout")], 408))
    ensures response.code != 500 && response.code != 408 && response.body.None? ==> p == Raises(ParseError)
    ensures p.Raises? ==> response.code != 500 && response.code != 408
    ensures p.Returns? ==> p.record.code == response.code
    ensures p.Returns? ==> (p.record.response.None? <==> response.code in ErrorCodes)
    ensures p.Returns? && response.code in ErrorCodes ==>
      p.record.body.None? && p.record.errors.JArray? && |p.record.errors.elems| >= 1
      && (response.code != 422 ==> |p.record.errors.elems| == 1)
    ensures p.Returns? && response.code !in ErrorCodes ==>
      p.record.response == Some(response) && p.record.body == response.body
    ensures response.code !in ErrorCodes && response.body.Some? ==>
      (p.Returns? <==> response.body.value.JObject? || response.body.value.JString?)
  {
    var code := response.code;
    if code == 500 then Returns(Error([JString("(500) Error")], 500))
    else if code == 408 then Returns(Error([JString("(408) Request Timeout")], 408))
    else if response.body.None? then Raises(ParseError)
    else
      var body := response.body.value;
      if code == 401 then Detailed("(401) Unauthorized - ", body, 401)
      else if code == 404 then Detailed("(404) Not Found - ", body, 404)
      else if code == 409 then Detailed("(409) Conflict - ", body, 409)
      else if code == 402 then Detailed("(402) Limit Exceeded - ", body, 402)
      else if code == 422 then
        match UnprocessableErrors(body)
        case Value(errors) => Returns(Error(errors, 422))
        case Raise(e) => Raises(e)
      else
        match Index(body, "errors")
        case Value(soft) => Returns(Record(Some(response), Some(body), if Truthy(soft) then soft else JArray([]), code))
        case Raise(e) => Raises(e)
  }

  /**
   * 401, 404, 409 and 402 give exactly one message: the status text followed
   * by `body['error']` for a hash or string body. Any other body raises.
   */
  lemma DetailedMessage(code: int, fields: map<string, Json>, text: string, other: Json)
    requires code in {401, 404, 409, 402}
    ensures var detail := if "error" in fields then ToS(fields["error"]) else "";
      Classify(Response(code, Some(JObject(fields)))) == Returns(Error([JString(
        (if code == 401 then "(401) Unauthorized - "
         else if code == 404 then "(404) Not Found - "
         else if code == 409 then "(409) Conflict - "
         else "(402) Limit Exceeded - ") + detail)], code))
    ensures var detail := if Contains(text, "error") then "error" else "";
      Classify(Response(code, Some(JString(text)))) == Returns(Error([JString(
        (if code == 401 then "(401) Unauthorized - "
         else if code == 404 then "(404) Not Found - "
         else if code == 409 then "(409) Conflict - "
         else "(402) Limit Exceeded - ") + detail)], code))
    ensures !(other.JObject? || other.JString?) ==> Classify(Response(code, Some(other))).Raises?
  {
  }

  /**
   * 422 lists the status line, then `body['error']` when present, then every
   * element of `body['errors']` when that is an array; a non-array `errors`
   * value raises.
   */
  lemma UnprocessableOrder(fields: map<string, Json>)
    ensures var detail := if "error" in fields && Truthy(fields["error"]) then [fields["error"]] else [];
      var p := Classify(Response(422, Some(JObject(fields))));
      if "errors" in fields && Truthy(fields["errors"]) && !fields["errors"].JArray? then p == Raises(TypeError)
      else p == Returns(Error([JString("(422) Unprocessable Entity")] + detail
                              + (if "errors" in fields && fields["errors"].JArray? then fields["errors"].elems else []), 422))
  {
  }

  /**
   * 422 with a string body: `[]` gives the key itself, so a string containing
   * `errors` raises and one containing only `error` adds that word.
   */
  lemma UnprocessableText(text: string)
    ensures var p := Classify(Response(422, Some(JString(text))));
      if Contains(text, "errors") then p == Raises(TypeError)
      else p == Returns(Error([JString("(422) Unprocessable Entity")]
                              + (if Contains(text, "error") then [JString("error")] else []), 422))
  {
  }

  /** 422 with neither key gives the status line alone. */
  lemma UnprocessableAlone(fields: map<string, Json>)
    requires "error" !in fields && "errors" !in fields
    ensures Classify(Response(422, Some(JObject(fields)))) == Returns(Error([JString("(422) Unprocessable Entity")], 422))
  {
  }

  /**
   * Any status outside the error table gives the success form for a hash or
   * string body: the original response, the parsed body, and `body['errors']`,
   * or `[]` when that is falsy. Any other body raises.
   */
  lemma SuccessRecord(code: int, fields: map<string, Json>, text: string, other: Json)
    requires code !in ErrorCodes
    ensures var response := Response(code, Some(JObject(fields)));
      Classify(response) == Returns(Record(Some(response), Some(JObject(fields)),
        if "errors" in fields && Truthy(fields["errors"]) then fields["errors"] else JArray([]), code))
    ensures var response := Response(code, Some(JString(text)));
      Classify(response) == Returns(Record(Some(response), Some(JString(text)),
        if Contains(text, "errors") then JString("errors") else JArray([]), code))
    ensures !(other.JObject? || other.JString?) ==>
      Classify(Response(code, Some(other))).Raises?
  {
  }

  /** Four sample responses and the records they give. */
  lemma DocumentedSamples()
    ensures Classify(Response(422, Some(JObject(map["error" := JString("bad field"),
                                                   "errors" := JArray([JString("a"), JString("b")])]))))
      == Returns(Error([JString("(422) Unprocessable Entity"), JString("bad field"), JString("a"), JString("b")], 422))
    ensures Classify(Response(422, Some(JObject(map[])))) == Returns(Error([JString("(422) Unprocessable Entity")], 422))
    ensures var ok := Response(200, Some(JObject(map["errors" := JArray([JString("x")])])));
      Classify(ok) == Returns(Record(Some(ok), ok.body, JArray([JString("x")]), 200))
    ensures var empty := Response(200, Some(JObject(map[])));
      Classify(empty) == Returns(Record(Some(empty), empty.body, JArray([]), 200))
  {
    assert JArray([JString("x")]) != JNull;
    UnprocessableOrder(map["error" := JString("bad field"), "errors" := JArray([JString("a"), JString("b")])]);
  }

  // ------------------------------------------------------------------
  // Handling an error response
  // ------------------------------------------------------------------

  /** What an operation's `rescue` does with an error response. */
  datatype Rescue = FollowRedirect | ParseResponse | ReturnResponse

  /** The rescue's case split: redirects are followed, others classified, or returned as they are by `run`. */
  function Dispatch(code: int, classifies: bool): (h: Rescue)
    ensures h == FollowRedirect <==> code in RedirectCodes
    ensures h == ParseResponse <==> code !in RedirectCodes && classifies
    ensures h == ReturnResponse <==> code !in RedirectCodes && !classifies
  {
    if code == 301 || code == 302 || code == 307 then FollowRedirect
    else if classifies then ParseResponse
    else ReturnResponse
  }

  /** What the HTTP library did: returned the response, or raised an exception carrying it. */
  datatype Exec = Returned(response: Response) | Rejected(response: Response)

  /**
   * What an operation gives back: the outcome of following the redirect of a
   * response (left abstract), a classified result, or the response itself.
   */
  datatype Reply = FollowsRedirect(from: Response) | Result(parsed: Parsed) | RawResponse(response: Response)

  /**
   * The reply of a classified operation (`classifies`) or of `run`: a
   * returned response goes through `parse` (or back unchanged for `run`); an
   * error response goes through the rescue.
   */
  function Respond(exec: Exec, classifies: bool): (reply: Reply)
    ensures reply.FollowsRedirect? <==> exec.Rejected? && exec.response.code in RedirectCodes
    ensures reply.FollowsRedirect? ==> reply.from == exec.response
    ensures reply.Result? <==> classifies && !(exec.Rejected? && exec.response.code in RedirectCodes)
    ensures reply.Result? ==> reply.parsed == Classify(exec.response)
    ensures reply.RawResponse? ==> reply.response == exec.response
  {
    match exec
    case Returned(response) =>
      if classifies then Result(Classify(response)) else RawResponse(response)
    case Rejected(response) =>
      match Dispatch(response.code, classifies)
      case FollowRedirect => FollowsRedirect(response)
      case ParseResponse => Result(Classify(response))
      case ReturnResponse => RawResponse(response)
  }

  // ------------------------------------------------------------------
  // Requests
  // ------------------------------------------------------------------

  /** Header names: Ruby symbols (`content_type:`) or strings (`'API-KEY'`). */
  datatype HeaderKey = Sym(symbol: string) | Str(name: string)

  /** Header values: strings, or `true` for the benchmark header. */
  datatype HeaderValue = Text(text: string) | Flag(flag: bool)

  type Headers = map<HeaderKey, HeaderValue>

  const ApiKeyHeader := Str("API-KEY")
  const ApiSecretHeader := Str("API-SECRET")
  const BenchmarkHeader := Str("Benchmark")

  /** The content headers every JSON operation sends besides the credentials. */
  const ContentHeaders: Headers :=
    map[Sym("content_type") := Text("application/json"), Sym("accept") := Text("application/json")]

  /** A request body. */
  datatype Payload =
    | NoPayload                               // no `payload:` argument
    | JsonText(doc: Json)                     // the JSON text of `doc`
    | FormFields(fields: map<string, string>) // a Ruby hash handed over as form fields
    | FileUpload(field: string, path: string) // a file opened for binary reading, sent as multipart
    | Verbatim(data: string)                  // the caller's payload, as given

  datatype Request = Request(verb: string, url: string, payload: Payload, headers: Headers)

  // ------------------------------------------------------------------
  // URLs
  // ------------------------------------------------------------------

  /** The reference form of a URL path: each segment preceded by a slash. */
  function Path(segments: seq<string>): string {
    if segments == [] then "" else "/" + segments[0] + Path(segments[1..])
  }

  lemma {:induction false} PathAppend(a: seq<string>, b: seq<string>)
    ensures Path(a + b) == Path(a) + Path(b)
  {
    if a != [] {
      assert (a + b)[0] == a[0];
      assert (a + b)[1..] == a[1..] + b;
      PathAppend(a[1..], b);
      calc {
        Path(a + b);
        "/" + a[0] + Path(a[1..] + b);
        "/" + a[0] + (Path(a[1..]) + Path(b));
        ("/" + a[0] + Path(a[1..])) + Path(b);
      }
    } else {
      assert a + b == b;
    }
  }

  /** A path is empty exactly when it has no segments, and otherwise starts with a slash. */
  lemma PathShape(a: seq<string>)
    ensures Path(a) == [] <==> a == []
    ensures a != [] ==> Path(a)[0] == '/'
  {
  }

  predicate SlashFree(s: string) {
    '/' !in s
  }

  predicate AllSlashFree(segments: seq<string>) {
    forall k | 0 <= k < |segments| :: SlashFree(segments[k])
  }

  /** Where the first slash of `s` is, or `|s|` when it has none. */
  function FirstSlash(s: string): (k: nat)
    ensures k <= |s|
  {
    if s == [] || s[0] == '/' then 0 else 1 + FirstSlash(s[1..])
  }

  /** Before a path, the first slash ends a slash-free name. */
  lemma {:induction false} FirstSlashEndsName(x: string, p: string)
    requires SlashFree(x)
    requires p == [] || p[0] == '/'
    ensures FirstSlash(x + p) == |x|
  {
    if x == [] {
      assert x + p == p;
    } else {
      assert (x + p)[0] == x[0] && x[0] in x;
      assert (x + p)[1..] == x[1..] + p;
      assert forall c | c in x[1..] :: c in x;
      FirstSlashEndsName(x[1..], p);
    }
  }

  /** Two slash-free names followed by paths split apart the same way. */
  lemma SplitAtSlash(x: string, p: string, y: string, q: string)
    requires SlashFree(x) && SlashFree(y)
    requires p == [] || p[0] == '/'
    requires q == [] || q[0] == '/'
    requires x + p == y + q
    ensures x == y && p == q
  {
    var s := x + p;
    FirstSlashEndsName(x, p);
    FirstSlashEndsName(y, q);
    assert x == s[..|x|] == y;
    assert p == s[|x|..] == q;
  }

  /** Slash-free segments are recovered from their path: different targets give different URLs. */
  lemma {:induction false} PathInjective(a: seq<string>, b: seq<string>)
    requires AllSlashFree(a) && AllSlashFree(b)
    requires Path(a) == Path(b)
    ensures a == b
  {
    PathShape(a);
    PathShape(b);
    if a != [] && b != [] {
      var p, q := Path(a[1..]), Path(b[1..]);
      PathShape(a[1..]);
      PathShape(b[1..]);
      assert Path(a) == "/" + (a[0] + p);
      assert Path(b) == "/" + (b[0] + q);
      assert a[0] + p == Path(a)[1..] == b[0] + q;
      assert SlashFree(a[0]) && SlashFree(b[0]);
      SplitAtSlash(a[0], p, b[0], q);
      assert AllSlashFree(a[1..]) by {
        forall k | 0 <= k < |a[1..]| ensures SlashFree(a[1..][k]) { assert a[1..][k] == a[k + 1]; }
      }
      assert AllSlashFree(b[1..]) by {
        forall k | 0 <= k < |b[1..]| ensures SlashFree(b[1..][k]) { assert b[1..][k] == b[k + 1]; }
      }
      PathInjective(a[1..], b[1..]);
      assert a == [a[0]] + a[1..];
      assert b == [b[0]] + b[1..];
    }
  }

  /** `api_url`: the host followed by the version segment. */
  function ApiUrl(host: string): (url: string)
    ensures url == host + Path([ApiVersion])
  {
    host + "/" + ApiVersion
  }

  function WorkspacesUrl(apiUrl: string): (url: string)
    ensures url == apiUrl + Path(["workspaces"])
  {
    apiUrl + "/workspaces"
  }

  function WorkspaceUrl(apiUrl: string, workspace: string): (url: string)
    ensures url == apiUrl + Path(["workspaces", workspace])
  {
    assert Path([workspace]) == "/" + workspace;
    apiUrl + "/workspaces/" + workspace
  }

  function CredentialsUrl(apiUrl: string, workspace: string): (url: string)
    ensures url == apiUrl + Path(["workspaces", workspace, "credentials"])
  {
    assert Path(["credentials"]) == "/credentials";
    assert Path([workspace, "credentials"]) == "/" + workspace + "/credentials";
    apiUrl + "/workspaces/" + workspace + "/credentials"
  }

  function DeployUrl(apiUrl: string, workspace: string): (url: string)
    ensures url == apiUrl + Path(["workspaces", workspace, "deploy"])
  {
    assert Path(["deploy"]) == "/deploy";
    assert Path([workspace, "deploy"]) == "/" + workspace + "/deploy";
    apiUrl + "/workspaces/" + workspace + "/deploy"
  }

  function FunctionUrl(apiUrl: string, workspace: string, fn: string): (url: string)
    ensures url == apiUrl + Path(["workspaces", workspace, "functions", fn])
  {
    assert Path([fn]) == "/" + fn;
    assert Path(["functions", fn]) == "/functions/" + fn;
    assert Path([workspace, "functions", fn]) == "/" + workspace + "/functions/" + fn;
    apiUrl + "/workspaces/" + workspace + "/functions/" + fn
  }

  /** The invocation URL: on the host itself, no version segment, the query appended as given. */
  function RunUrl(host: string, workspace: string, fn: string, query: Option<string>): (url: string)
    ensures url == host + Path([workspace, fn]) + query.GetOr("")
  {
    assert Path([fn]) == "/" + fn;
    assert Path([workspace, fn]) == "/" + workspace + "/" + fn;
    host + "/" + workspace + "/" + fn + query.GetOr("")
  }

  /** Appending distinct tails to one prefix gives distinct strings. */
  lemma PrefixCancel(prefix: string, x: string, y: string)
    requires prefix + x == prefix + y
    ensures x == y
  {
    assert x == (prefix + x)[|prefix|..];
    assert y == (prefix + y)[|prefix|..];
  }

  /**
   * For slash-free names the management URLs of one client name one
   * resource each: their workspace and function names can be read back, and
   * the workspace, credentials, deploy and function endpoints never coincide.
   */
  lemma ManagementUrlsDistinct(apiUrl: string, ws1: string, fn1: string, ws2: string, fn2: string)
    requires SlashFree(ws1) && SlashFree(fn1) && SlashFree(ws2) && SlashFree(fn2)
    ensures FunctionUrl(apiUrl, ws1, fn1) == FunctionUrl(apiUrl, ws2, fn2) ==> ws1 == ws2 && fn1 == fn2
    ensures WorkspaceUrl(apiUrl, ws1) == WorkspaceUrl(apiUrl, ws2) ==> ws1 == ws2
    ensures WorkspaceUrl(apiUrl, ws1) != CredentialsUrl(apiUrl, ws2)
    ensures WorkspaceUrl(apiUrl, ws1) != DeployUrl(apiUrl, ws2)
    ensures CredentialsUrl(apiUrl, ws1) != DeployUrl(apiUrl, ws2)
    ensures WorkspaceUrl(apiUrl, ws1) != FunctionUrl(apiUrl, ws2, fn2)
    ensures CredentialsUrl(apiUrl, ws1) != FunctionUrl(apiUrl, ws2, fn2)
    ensures DeployUrl(apiUrl, ws1) != FunctionUrl(apiUrl, ws2, fn2)
  {
    var fun1, fun2 := ["workspaces", ws1, "functions", fn1], ["workspaces", ws2, "functions", fn2];
    var wsp1, wsp2 := ["workspaces", ws1], ["workspaces", ws2];
    var cred1, cred2 := ["workspaces", ws1, "credentials"], ["workspaces", ws2, "credentials"];
    var dep1, dep2 := ["workspaces", ws1, "deploy"], ["workspaces", ws2, "deploy"];
    assert "workspaces"[0] != '/' && "workspaces"[1] != '/';
    assert SlashFree("workspaces") && SlashFree("functions") && SlashFree("credentials") && SlashFree("deploy");
    assert AllSlashFree(fun1) && AllSlashFree(fun2) && AllSlashFree(wsp1) && AllSlashFree(wsp2);
    assert AllSlashFree(cred1) && AllSlashFree(cred2) && AllSlashFree(dep1) && AllSlashFree(dep2);
    if FunctionUrl(apiUrl, ws1, fn1) == FunctionUrl(apiUrl, ws2, fn2) {
      PrefixCancel(apiUrl, Path(fun1), Path(fun2));
      PathInjective(fun1, fun2);
      assert fun1[1] == fun2[1] && fun1[3] == fun2[3];
    }
    if WorkspaceUrl(apiUrl, ws1) == WorkspaceUrl(apiUrl, ws2) {
      PrefixCancel(apiUrl, Path(wsp1), Path(wsp2));
      PathInjective(wsp1, wsp2);
      assert wsp1[1] == wsp2[1];
    }
    NoCommonUrl(apiUrl, wsp1, cred2);
    NoCommonUrl(apiUrl, wsp1, dep2);
    NoCommonUrl(apiUrl, cred1, dep2);
    NoCommonUrl(apiUrl, wsp1, fun2);
    NoCommonUrl(apiUrl, cred1, fun2);
    NoCommonUrl(apiUrl, dep1, fun2);
  }

  /** Different slash-free targets under one base give different URLs. */
  lemma NoCommonUrl(base: string, a: seq<string>, b: seq<string>)
    requires AllSlashFree(a) && AllSlashFree(b) && a != b
    ensures base + Path(a) != base + Path(b)
  {
    if base + Path(a) == base + Path(b) {
      PrefixCancel(base, Path(a), Path(b));
      PathInjective(a, b);
    }
  }

  /**
   * Names are interpolated without escaping, so a workspace name holding a
   * slash can reach another endpoint: the info URL of workspace
   * "team/credentials" is the credentials URL of workspace "team".
   */
  lemma UnescapedNamesAlias(apiUrl: string)
    ensures WorkspaceUrl(apiUrl, "team/credentials") == CredentialsUrl(apiUrl, "team")
  {
    assert "/workspaces/" + "team/credentials" == "/workspaces/" + "team" + "/credentials";
  }

  // ------------------------------------------------------------------
  // The client
  // ------------------------------------------------------------------

  /** A header hash owned by the caller of `run`, which `run` updates in place. */
  class HeaderHash {
    var entries: Headers

    constructor (entries: Headers)
      ensures this.entries == entries
    {
      this.entries := entries;
    }
  }

  /**
   * The client object. The host, key and secret are the platform
   * configuration it reads when it is created; the other fields are derived
   * from them once and never change.
   */
  class Api {
    const host: string
    const apiKey: string
    const apiSecret: string
    const apiUrl: string
    const credentials: Headers
    const headers: Headers

    /** How the constructor derives its fields. */
    predicate Valid() {
      apiUrl == ApiUrl(host)
      && credentials == map[ApiKeyHeader := Text(apiKey), ApiSecretHeader := Text(apiSecret)]
      && headers == ContentHeaders + credentials
    }

    constructor (host: string, apiKey: string, apiSecret: string)
      ensures Valid()
      ensures this.host == host && this.apiKey == apiKey && this.apiSecret == apiSecret
    {
      this.host := host;
      this.apiKey := apiKey;
      this.apiSecret := apiSecret;
      apiUrl := host + "/" + ApiVersion;
      var credentials := map[ApiKeyHeader := Text(apiKey), ApiSecretHeader := Text(apiSecret)];
      this.credentials := credentials;
      headers := ContentHeaders + credentials;
    }

    /** The classifier `parse`, building the 422 message list step by step. */
    method Parse(response: Response) returns (p: Parsed)
      ensures p == Classify(response)
    {
      var code := response.code;
      var body := JNull;
      if code != 500 && code != 408 {
        if response.body.None? {
          return Raises(ParseError);
        }
        body := response.body.value;
      }
      if code == 401 {
        p := Detailed("(401) Unauthorized - ", body, 401);
      } else if code == 404 {
        p := Detailed("(404) Not Found - ", body, 404);
      } else if code == 409 {
        p := Detailed("(409) Conflict - ", body, 409);
      } else if code == 500 {
        p := Returns(Error([JString("(500) Error")], 500));
      } else if code == 408 {
        p := Returns(Error([JString("(408) Request Timeout")], 408));
      } else if code == 402 {
        p := Detailed("(402) Limit Exceeded - ", body, 402);
      } else if code == 422 {
        var errors := [JString("(422) Unprocessable Entity")];
        var detail := Index(body, "error");
        if detail.Raise? {
          return Raises(detail.exception);
        }
        if Truthy(detail.value) {
          errors := errors + [detail.value];
        }
        // Once `body['error']` has not raised, `body['errors']` cannot raise either.
        var more := Index(body, "errors");
        if more.Value? && Truthy(more.value) {
          if !more.value.JArray? {
            return Raises(TypeError);
          }
          errors := errors + more.value.elems;
        }
        p := Returns(Error(errors, 422));
      } else {
        var soft := Index(body, "errors");
        if soft.Raise? {
          return Raises(soft.exception);
        }
        p := Returns(Record(Some(response), Some(body), if Truthy(soft.value) then soft.value else JArray([]), code));
      }
    }

    /** The common tail of every operation: parse what came back, or run the rescue. */
    method Receive(exec: Exec, classifies: bool) returns (reply: Reply)
      ensures reply == Respond(exec, classifies)
    {
      match exec
      case Returned(response) =>
        if classifies {
          var p := Parse(response);
          reply := Result(p);
        } else {
          reply := RawResponse(response);
        }
      case Rejected(response) =>
        var handling := Dispatch(response.code, classifies);
        if handling == FollowRedirect {
          reply := FollowsRedirect(response);
        } else if handling == ParseResponse {
          var p := Parse(response);
          reply := Result(p);
        } else {
          reply := RawResponse(response);
        }
    }

    /** POST to the workspace collection; the payload has `email` and `provider` only when given. */
    method CreateWorkspace(workspaceName: string, email: Option<string>, provider: Option<string>, exec: Exec)
      returns (request: Request, reply: Reply)
      requires Valid()
      ensures request.verb == "post"
      ensures request.url == host + Path([ApiVersion, "workspaces"])
      ensures request.headers == ContentHeaders + credentials
      ensures request.payload.JsonText? && request.payload.doc.JObject?
      ensures var fields := request.payload.doc.fields;
        fields.Keys == {"name"} + (if email.Some? then {"email"} else {}) + (if provider.Some? then {"provider"} else {})
        && fields["name"] == JString(workspaceName)
        && (email.Some? ==> fields["email"] == JString(email.value))
        && (provider.Some? ==> fields["provider"] == JString(provider.value))
      ensures reply == Respond(exec, true)
    {
      var url := WorkspacesUrl(apiUrl);
      PathAppend([ApiVersion], ["workspaces"]);
      var payload := map["name" := JString(workspaceName)];
      if email.Some? {
        payload := payload["email" := JString(email.value)];
      }
      if provider.Some? {
        payload := payload["provider" := JString(provider.value)];
      }
      request := Request("post", url, JsonText(JObject(payload)), headers);
      reply := Receive(exec, true);
    }

    method DestroyWorkspace(workspaceName: string, exec: Exec) returns (request: Request, reply: Reply)
      requires Valid()
      ensures request == Request("delete", host + Path([ApiVersion, "workspaces", workspaceName]), NoPayload,
                                 ContentHeaders + credentials)
      ensures reply == Respond(exec, true)
    {
      var url := WorkspaceUrl(apiUrl, workspaceName);
      PathAppend([ApiVersion], ["workspaces", workspaceName]);
      request := Request("delete", url, NoPayload, headers);
      reply := Receive(exec, true);
    }

    method GetWorkspaceInfo(workspaceName: string, exec: Exec) returns (request: Request, reply: Reply)
      requires Valid()
      ensures request == Request("get", host + Path([ApiVersion, "workspaces", workspaceName]), NoPayload,
                                 ContentHeaders + credentials)
      ensures reply == Respond(exec, true)
    {
      var url := WorkspaceUrl(apiUrl, workspaceName);
      PathAppend([ApiVersion], ["workspaces", workspaceName]);
      request := Request("get", url, NoPayload, headers);
      reply := Receive(exec, true);
    }

    /** PUT an empty form to the credentials endpoint, with the credentials as the only headers. */
    method RefreshCredentials(workspaceName: string, exec: Exec) returns (request: Request, reply: Reply)
      requires Valid()
      ensures request == Request("put", host + Path([ApiVersion, "workspaces", workspaceName, "credentials"]),
                                 FormFields(map[]), credentials)
      ensures request.headers.Keys == {ApiKeyHeader, ApiSecretHeader}
      ensures reply == Respond(exec, true)
    {
      var url := CredentialsUrl(apiUrl, workspaceName);
      PathAppend([ApiVersion], ["workspaces", workspaceName, "credentials"]);
      request := Request("put", url, FormFields(map[]), credentials);
      reply := Receive(exec, true);
    }

    /** POST the package file as a multipart upload, with the credentials as the only headers. */
    method Deploy(workspaceName: string, package: string, exec: Exec) returns (request: Request, reply: Reply)
      requires Valid()
      ensures request == Request("post", host + Path([ApiVersion, "workspaces", workspaceName, "deploy"]),
                                 FileUpload("package", package), credentials)
      ensures request.headers.Keys == {ApiKeyHeader, ApiSecretHeader}
      ensures reply == Respond(exec, true)
    {
      var url := DeployUrl(apiUrl, workspaceName);
      PathAppend([ApiVersion], ["workspaces", workspaceName, "deploy"]);
      request := Request("post", url, FileUpload("package", package), credentials);
      reply := Receive(exec, true);
    }

    method DeleteFromWorkspace(functionName: string, workspaceName: string, exec: Exec)
      returns (request: Request, reply: Reply)
      requires Valid()
      ensures request == Request("delete", host + Path([ApiVersion, "workspaces", workspaceName, "functions", functionName]),
                                 NoPayload, ContentHeaders + credentials)
      ensures reply == Respond(exec, true)
    {
      var url := FunctionUrl(apiUrl, workspaceName, functionName);
      PathAppend([ApiVersion], ["workspaces", workspaceName, "functions", functionName]);
      request := Request("delete", url, NoPayload, headers);
      reply := Receive(exec, true);
    }

    /** PATCH the function; the payload, already a string, is JSON-encoded once more. */
    method UpdateFunctionContext(functionName: string, workspaceName: string, payload: string, exec: Exec)
      returns (request: Request, reply: Reply)
      requires Valid()
      ensures request == Request("patch", host + Path([ApiVersion, "workspaces", workspaceName, "functions", functionName]),
                                 JsonText(JString(payload)), ContentHeaders + credentials)
      ensures reply == Respond(exec, true)
    {
      var url := FunctionUrl(apiUrl, workspaceName, functionName);
      PathAppend([ApiVersion], ["workspaces", workspaceName, "functions", functionName]);
      request := Request("patch", url, JsonText(JString(payload)), headers);
      reply := Receive(exec, true);
    }

    /**
     * Invoke a function: the URL is on the host itself, the caller's header
     * hash gains `Benchmark => true` when `time` is set, a "get" sends no
     * payload, and no reply is ever classified.
     */
    method Run(functionName: string, workspaceName: string, payload: string, verb: string,
               callerHeaders: HeaderHash, time: bool, query: Option<string>, exec: Exec)
      returns (request: Request, reply: Reply)
      modifies callerHeaders
      ensures callerHeaders.entries ==
        if time then old(callerHeaders.entries)[BenchmarkHeader := Flag(true)] else old(callerHeaders.entries)
      ensures request.verb == verb
      ensures request.url == host + Path([workspaceName, functionName]) + query.GetOr("")
      ensures request.payload == if verb == "get" then NoPayload else Verbatim(payload)
      ensures request.headers == callerHeaders.entries
      ensures reply == Respond(exec, false)
    {
      var url := RunUrl(host, workspaceName, functionName, query);
      if time {
        callerHeaders.entries := callerHeaders.entries[BenchmarkHeader := Flag(true)];
      }
      if verb == "get" {
        request := Request("get", url, NoPayload, callerHeaders.entries);
      } else {
        request := Request(verb, url, Verbatim(payload), callerHeaders.entries);
      }
      reply := Receive(exec, false);
    }
  }

  /**
   * The combined headers of a client keep both credentials and add exactly
   * the two content headers, which the credentials-only operations lack.
   */
  lemma HeaderSets(api: Api)
    requires api.Valid()
    ensures api.headers.Keys == api.credentials.Keys + ContentHeaders.Keys
    ensures forall k | k in api.credentials :: api.headers[k] == api.credentials[k]
    ensures api.headers[ApiKeyHeader] == Text(api.apiKey) && api.headers[ApiSecretHeader] == Text(api.apiSecret)
    ensures Sym("content_type") in api.headers && Sym("content_type") !in api.credentials
  {
  }
}
