/** downloaders.py: the aria2 JSON-RPC client (request envelope, `addUri`
    parameter layout, mapping of failures to error dictionaries) and the
    qBittorrent Web API client (login, the "ok." body check, version probe).
    The HTTP exchange is an input: what the POST or GET came back with. */
module Downloaders {
  import opened Common

  /** An aria2 RPC exchange: it failed (connection error, timeout, HTTP error
      status or an undecodable body, with the exception text), or it answered
      with a decoded JSON body. */
  datatype RpcReply = RpcFailed(message: string) | RpcAnswered(body: Value)

  /** A qBittorrent Web API exchange: it failed (with the exception text), or
      it answered with a 2xx status and a response text. */
  datatype WebReply = WebFailed(message: string) | WebAnswered(text: string)

  /** A qBittorrent API call: the path joined onto the host, and the form data. */
  datatype ApiCall = ApiCall(path: string, form: map<string, string>)

  const JsonRpcVersion: string := "2.0"
  const RequestId: string := "rss-downloader"
  const AddUri: string := "aria2.addUri"
  const GetVersionMethod: string := "aria2.getVersion"
  const LoginPath: string := "/api/v2/auth/login"
  const AddPath: string := "/api/v2/torrents/add"
  const VersionPath: string := "/api/v2/app/version"

  /** An optional string that is truthy: present and non-empty. */
  predicate Given(o: Option<string>)
  {
    o.Some? && o.value != ""
  }

  /** The Aria2Client fields; none changes after construction. */
  datatype Aria2Client = Aria2Client(rpcUrl: string, secret: Option<string>, dir: Option<string>)

  /** The `params` member of a request built by PrepareRequest. */
  function ParamsOf(req: Value): seq<Value>
  {
    if req.Obj? && "params" in req.fields && req.fields["params"].List? then req.fields["params"].items else []
  }

  /** A request's parameters after the leading token, if the client sends one. */
  function ArgumentsOf(client: Aria2Client, req: Value): seq<Value>
  {
    var ps := ParamsOf(req);
    if Given(client.secret) && ps != [] then ps[1..] else ps
  }

  /** Aria2Client._prepare_request: a JSON-RPC 2.0 request object with the
      fixed id; a truthy secret is prepended to the parameters as
      "token:<secret>", which keep their order. */
  method PrepareRequest(client: Aria2Client, rpcMethod: string, params: Option<seq<Value>>) returns (req: Value)
    ensures req.Obj? && req.fields.Keys == {"jsonrpc", "id", "method", "params"}
    ensures req.fields["jsonrpc"] == Str(JsonRpcVersion) && req.fields["id"] == Str(RequestId)
    ensures req.fields["method"] == Str(rpcMethod)
    ensures var given := if params.None? then [] else params.value;
            var ps := ParamsOf(req);
            && (Given(client.secret) ==> |ps| == |given| + 1 && ps[0] == Str("token:" + client.secret.value))
            && ArgumentsOf(client, req) == given
  {
    var ps: seq<Value> := [];
    if params.Some? {
      ps := params.value;
    }
    if Given(client.secret) {
      ps := [Str("token:" + client.secret.value)] + ps;
    }
    req := Obj(map["jsonrpc" := Str(JsonRpcVersion), "id" := Str(RequestId),
                   "method" := Str(rpcMethod), "params" := List(ps)]);
    assert ParamsOf(req) == ps;
  }

  /** Aria2Client.add_link: `aria2.addUri` with `[[link]]`, followed by
      `{"dir": dir}` only when dir is truthy. It never raises: a failed
      exchange becomes `{"error": message}`, an answer is returned as is. */
  method Aria2AddLink(client: Aria2Client, link: string, reply: RpcReply) returns (req: Value, result: Value)
    ensures req.Obj? && "method" in req.fields && req.fields["method"] == Str(AddUri)
    ensures Given(client.dir) ==>
              ArgumentsOf(client, req) == [List([Str(link)]), Obj(map["dir" := Str(client.dir.value)])]
    ensures !Given(client.dir) ==> ArgumentsOf(client, req) == [List([Str(link)])]
    ensures reply.RpcFailed? ==> result == Obj(map["error" := Str(reply.message)])
    ensures reply.RpcAnswered? ==> result == reply.body
  {
    var options: map<string, Value> := map[];
    if Given(client.dir) {
      options := options["dir" := Str(client.dir.value)];
      assert "dir" in options;
    }
    var params: seq<Value> := [List([Str(link)])];
    if options != map[] {
      params := params + [Obj(options)];
    }
    req := PrepareRequest(client, AddUri, Some(params));
    match reply {
      case RpcFailed(message) => result := Obj(map["error" := Str(message)]);
      case RpcAnswered(body) => result := body;
    }
  }

  /** Aria2Client.get_version: `aria2.getVersion` without arguments; a
      failure becomes `{"error": {"message": message}}`. */
  method Aria2GetVersion(client: Aria2Client, reply: RpcReply) returns (req: Value, result: Value)
    ensures req.Obj? && "method" in req.fields && req.fields["method"] == Str(GetVersionMethod)
    ensures ArgumentsOf(client, req) == []
    ensures reply.RpcFailed? ==> result == Obj(map["error" := Obj(map["message" := Str(reply.message)])])
    ensures reply.RpcAnswered? ==> result == reply.body
  {
    req := PrepareRequest(client, GetVersionMethod, None);
    match reply {
      case RpcFailed(message) => result := Obj(map["error" := Obj(map["message" := Str(message)])]);
      case RpcAnswered(body) => result := body;
    }
  }

  /** `"error" in result` in RSSDownloader._send_to_downloader, as Python
      evaluates it: a key test on a dict, an element test on a list, a
      substring test on a str; on any other value `in` (or the lookup after
      it) raises, which the send counts as a failure. True means accepted. */
  predicate Aria2Accepted(result: Value)
  {
    match result
    case Obj(fields) => "error" !in fields
    case List(items) => Str("error") !in items
    case Str(s) => !Contains(s, "error")
    case _ => false
  }

  /** A failed aria2 exchange is never taken for an accepted task. */
  lemma FailedAddIsRejected(client: Aria2Client, link: string, message: string)
    ensures !Aria2Accepted(Obj(map["error" := Str(message)]))
  {
  }

  /** A qBittorrent body that means success: "ok." after strip and lower. */
  predicate OkBody(text: string)
  {
    Lower(Strip(text)) == "ok."
  }

  /** White space around the body does not change the verdict. */
  lemma OkBodyIgnoresPadding(text: string)
    ensures OkBody([' '] + text + ['\n']) <==> OkBody(text)
  {
    StripPadded(text);
  }

  class QBittorrentClient {
    var baseUrl: string
    /** The session holds a login cookie: a login answered "Ok.". */
    var authenticated: bool

    /** QBittorrentClient.__init__: a login is attempted only with both a
        username and a password; `_login` swallows every failure, so the
        constructor always completes. */
    constructor (host: string, username: Option<string>, password: Option<string>, loginReply: WebReply)
      ensures baseUrl == host
      ensures authenticated <==> Given(username) && Given(password)
                                 && loginReply.WebAnswered? && OkBody(loginReply.text)
    {
      baseUrl := host;
      authenticated := false;
      new;
      if Given(username) && Given(password) {
        var call := Login(username.value, password.value, loginReply);
      }
    }

    /** QBittorrentClient._login: posts the credentials; only an answer
        whose body is "ok." logs the session in, and no outcome raises. */
    method Login(username: string, password: string, reply: WebReply) returns (call: ApiCall)
      modifies this
      ensures call == ApiCall(LoginPath, map["username" := username, "password" := password])
      ensures baseUrl == old(baseUrl)
      ensures authenticated <==> reply.WebAnswered? && OkBody(reply.text)
    {
      call := ApiCall(LoginPath, map["username" := username, "password" := password]);
      authenticated := reply.WebAnswered? && OkBody(reply.text);
    }

    /** QBittorrentClient.add_link: true iff the answer's body is "ok.";
        failures of every kind are false. */
    method AddLink(link: string, reply: WebReply) returns (call: ApiCall, ok: bool)
      ensures call == ApiCall(AddPath, map["urls" := link])
      ensures ok <==> reply.WebAnswered? && OkBody(reply.text)
    {
      call := ApiCall(AddPath, map["urls" := link]);
      match reply {
        case WebFailed(_) => ok := false;
        case WebAnswered(text) => ok := Lower(Strip(text)) == "ok.";
      }
    }

    /** QBittorrentClient.get_version: `{"version": body}` or `{"error": message}`. */
    method GetVersion(reply: WebReply) returns (call: ApiCall, result: Value)
      ensures call == ApiCall(VersionPath, map[])
      ensures reply.WebAnswered? ==> result == Obj(map["version" := Str(reply.text)])
      ensures reply.WebFailed? ==> result == Obj(map["error" := Str(reply.message)])
    {
      call := ApiCall(VersionPath, map[]);
      match reply {
        case WebFailed(message) => result := Obj(map["error" := Str(message)]);
        case WebAnswered(text) => result := Obj(map["version" := Str(text)]);
      }
    }
  }
}
