/** The legacy HTTP client (package http): no URL validation in Get/Delete, no status dispatch,
    and a Do that reads the body before it looks at the URL. */
module LegacyHttp {
  import opened Errors
  import opened Wire
  import opened HttpTypes
  import HttpClient

  /** Client options: Namespace, SDKConfig.Namespace, InsecureSkipVerify and the HostCall override. */
  datatype Config<H> = Config(namespace: string, sdkNamespace: string, insecureSkipVerify: bool, hostCall: Option<H>)

  /** Namespace precedence: Namespace, else SDKConfig.Namespace, else "default". */
  function ResolveNamespace(namespace: string, sdkNamespace: string): (ns: string)
    ensures ns != ""
    ensures namespace != "" ==> ns == namespace
    ensures namespace == "" && sdkNamespace != "" ==> ns == sdkNamespace
    ensures namespace == "" && sdkNamespace == "" ==> ns == DefaultNamespace
  {
    if namespace != "" then namespace
    else if sdkNamespace != "" then sdkNamespace
    else DefaultNamespace
  }

  /** The reply has a status whenever it decoded without a transport error: the client reads
      r.Status without a nil check, so a reply without one is outside what it handles. */
  predicate StatusPresent(reply: HostReply<CallResponse>) {
    reply.err.None? && reply.payload.Decoded? ==> reply.payload.msg.status.Some?
  }

  /** What each method returns for the host's reply: a transport or decode error wraps the cause
      only, and any decoded status, 404 or 500 included, is a response with a nil error. */
  function CallResult(reply: HostReply<CallResponse>): (r: (Response, Option<Error>))
    requires StatusPresent(reply)
    ensures r.1.None? <==> reply.err.None? && reply.payload.Decoded?
    ensures r.1.Some? ==> r.0 == EmptyResponse
    ensures reply.err.Some? ==> forall k :: Fails(r.1, k) <==> Is(reply.err.value, k)
    ensures reply.err.None? && reply.payload.DecodeFail? ==>
      forall k :: Fails(r.1, k) <==> Is(reply.payload.cause, k)
    ensures r.1.None? ==>
      var msg := reply.payload.msg;
      r.0 == Response(msg.status.value.message, msg.status.value.code as int, Some(msg.headers), BodyOf(msg.body))
  {
    if reply.err.Some? then
      (EmptyResponse, Some(Wrapped("host returned error", reply.err.value)))
    else if reply.payload.DecodeFail? then
      (EmptyResponse, Some(Wrapped("failed to unmarshal host response", reply.payload.cause)))
    else
      var msg := reply.payload.msg;
      (Response(msg.status.value.message, msg.status.value.code as int, Some(msg.headers), BodyOf(msg.body)), None)
  }

  /** The package's ErrHostCall and ErrUnmarshalResponse are never attached: a failed host call
      or an undecodable reply is identifiable as either only when its cause already was. */
  lemma SentinelsNeverAttached(reply: HostReply<CallResponse>)
    requires reply.err.Some? || reply.payload.DecodeFail?
    ensures CallResult(reply).1.Some?
    ensures var cause := if reply.err.Some? then reply.err.value else reply.payload.cause;
      (Fails(CallResult(reply).1, LegacyHostCall) <==> Is(cause, LegacyHostCall))
      && (Fails(CallResult(reply).1, LegacyUnmarshalResponse) <==> Is(cause, LegacyUnmarshalResponse))
  {
  }

  /** Unlike the current client, every host status other than 200 and 206 (404 and 500
      included) yields a response carrying that code and message, and no error. */
  lemma NoStatusDispatch(msg: CallResponse, code: int32, message: string)
    requires msg.status == Some(Status(code, message)) && code != 200 && code != 206
    ensures CallResult(HostReply(Decoded(msg), None)).1 == None
    ensures CallResult(HostReply(Decoded(msg), None)).0.statusCode == code as int
    ensures CallResult(HostReply(Decoded(msg), None)).0.status == message
    ensures HttpClient.CallResult(HostReply(Decoded(msg), None)).1.Some?
  {
  }

  /** NewRequest refuses only a URL that does not parse (wrapping the parse error); any method
      is accepted, the header starts empty and the body reader is kept as given. */
  function NewRequest(m: string, url: UrlArg, body: Reader): (r: Result<Request>)
    ensures url.parse.ParseErr? <==> r.Failure?
    ensures r.Failure? ==> r.error == Wrapped("failed to parse URL", url.parse.cause)
    ensures r.Success? ==> r.value == Request(m, Some(url.parse.url), map[], body)
  {
    if url.parse.ParseErr? then Failure(Wrapped("failed to parse URL", url.parse.cause))
    else Success(Request(m, Some(url.parse.url), map[], body))
  }

  /** Every request the current NewRequest builds, the legacy one builds too; and a URL that
      parses but has no Host, or a method outside the allowed set, passes the legacy NewRequest
      but not the current one. */
  lemma NewRequestLaxerThanCurrent(m: string, url: UrlArg, body: Reader)
    ensures HttpClient.NewRequest(m, url, body).Success? ==>
      NewRequest(m, url, body) == HttpClient.NewRequest(m, url, body)
    ensures url.parse.Parsed? && (m !in HttpClient.AllowedMethods || url.parse.url.host == "") ==>
      NewRequest(m, url, body).Success? && HttpClient.NewRequest(m, url, body).Failure?
  {
  }

  class LegacyClient<H> {
    var cfg: Config<H>
    var hostCall: H

    /** New: namespace precedence, and a missing HostCall falls back to waPC's. */
    constructor New(config: Config<H>, wapcHostCall: H)
      ensures cfg == config.(namespace := ResolveNamespace(config.namespace, config.sdkNamespace))
      ensures hostCall == (if config.hostCall.Some? then config.hostCall.value else wapcHostCall)
    {
      var c := config;
      if c.namespace == "" {
        if c.sdkNamespace != "" {
          c := c.(namespace := c.sdkNamespace);
        } else {
          c := c.(namespace := DefaultNamespace);
        }
      }
      var hostFn := wapcHostCall;
      if config.hostCall.Some? {
        hostFn := config.hostCall.value;
      }
      hostCall := hostFn;
      cfg := c;
    }

    /** The host call for a request: always addressed (namespace, "httpclient", "call"). */
    function Outgoing(req: CallRequest): HostCall<CallRequest>
      reads this
    {
      HostCall(cfg.namespace, "httpclient", "call", req)
    }

    /** The shared tail of every method: one host call, decoding, copying headers. */
    method Call(req: CallRequest, reply: HostReply<CallResponse>)
      returns (resp: Response, err: Option<Error>, sent: HostCall<CallRequest>)
      requires StatusPresent(reply)
      ensures sent == HostCall(cfg.namespace, "httpclient", "call", req)
      ensures (resp, err) == CallResult(reply)
    {
      sent := Outgoing(req);
      if reply.err.Some? {
        return EmptyResponse, Some(Wrapped("host returned error", reply.err.value)), sent;
      }
      if reply.payload.DecodeFail? {
        return EmptyResponse, Some(Wrapped("failed to unmarshal host response", reply.payload.cause)), sent;
      }
      var r := reply.payload.msg;
      var header := CopyMap(r.headers);
      resp := Response(r.status.value.message, r.status.value.code as int, Some(header), BodyOf(r.body));
      err := None;
    }

    /** Get performs no URL validation: even an unparsable URL is sent as given. */
    method Get(url: string, reply: HostReply<CallResponse>)
      returns (resp: Response, err: Option<Error>, sent: HostCall<CallRequest>)
      requires StatusPresent(reply)
      ensures sent == Outgoing(CallRequest("GET", url, cfg.insecureSkipVerify, map[], []))
      ensures (resp, err) == CallResult(reply)
    {
      resp, err, sent := Call(CallRequest("GET", url, cfg.insecureSkipVerify, map[], []), reply);
    }

    method Delete(url: string, reply: HostReply<CallResponse>)
      returns (resp: Response, err: Option<Error>, sent: HostCall<CallRequest>)
      requires StatusPresent(reply)
      ensures sent == Outgoing(CallRequest("DELETE", url, cfg.insecureSkipVerify, map[], []))
      ensures (resp, err) == CallResult(reply)
    {
      resp, err, sent := Call(CallRequest("DELETE", url, cfg.insecureSkipVerify, map[], []), reply);
    }

    /** Post and Put: a body read failure stops before the host call; Content-Type is always sent,
        even when empty. */
    method Send(verb: string, url: string, contentType: string, body: Reader, reply: HostReply<CallResponse>)
      returns (resp: Response, err: Option<Error>, sent: Option<HostCall<CallRequest>>)
      requires StatusPresent(reply)
      ensures body.ReadErr? ==>
        resp == EmptyResponse && err == Some(Wrapped("failed to read request body", body.cause)) && sent == None
      ensures !body.ReadErr? ==>
        sent == Some(Outgoing(CallRequest(verb, url, cfg.insecureSkipVerify, map["Content-Type" := [contentType]], BodyBytes(body))))
        && (resp, err) == CallResult(reply)
    {
      if body.ReadErr? {
        return EmptyResponse, Some(Wrapped("failed to read request body", body.cause)), None;
      }
      var req := CallRequest(verb, url, cfg.insecureSkipVerify, map["Content-Type" := [contentType]], BodyBytes(body));
      var call;
      resp, err, call := Call(req, reply);
      sent := Some(call);
    }

    method Post(url: string, contentType: string, body: Reader, reply: HostReply<CallResponse>)
      returns (resp: Response, err: Option<Error>, sent: Option<HostCall<CallRequest>>)
      requires StatusPresent(reply)
      ensures body.ReadErr? ==>
        resp == EmptyResponse && (forall k :: Fails(err, k) <==> Is(body.cause, k)) && sent == None
      ensures !body.ReadErr? ==>
        sent == Some(Outgoing(CallRequest("POST", url, cfg.insecureSkipVerify, map["Content-Type" := [contentType]], BodyBytes(body))))
        && (resp, err) == CallResult(reply)
    {
      resp, err, sent := Send("POST", url, contentType, body, reply);
    }

    method Put(url: string, contentType: string, body: Reader, reply: HostReply<CallResponse>)
      returns (resp: Response, err: Option<Error>, sent: Option<HostCall<CallRequest>>)
      requires StatusPresent(reply)
      ensures body.ReadErr? ==>
        resp == EmptyResponse && (forall k :: Fails(err, k) <==> Is(body.cause, k)) && sent == None
      ensures !body.ReadErr? ==>
        sent == Some(Outgoing(CallRequest("PUT", url, cfg.insecureSkipVerify, map["Content-Type" := [contentType]], BodyBytes(body))))
        && (resp, err) == CallResult(reply)
    {
      resp, err, sent := Send("PUT", url, contentType, body, reply);
    }

    /** Do reads the body first, and only then rejects a nil URL; a URL without Host is sent. */
    method Do(req: Request, reply: HostReply<CallResponse>)
      returns (resp: Response, err: Option<Error>, sent: Option<HostCall<CallRequest>>)
      requires StatusPresent(reply)
      ensures req.body.ReadErr? ==>
        resp == EmptyResponse && err == Some(Wrapped("failed to read request body", req.body.cause)) && sent == None
      ensures !req.body.ReadErr? && req.url.None? ==>
        resp == EmptyResponse && err == Some(Sentinel(LegacyInvalidURL)) && sent == None
      ensures !req.body.ReadErr? && req.url.Some? ==>
        sent == Some(Outgoing(CallRequest(req.httpMethod, req.url.value.text, cfg.insecureSkipVerify, req.header, BodyBytes(req.body))))
        && (resp, err) == CallResult(reply)
    {
      if req.body.ReadErr? {
        return EmptyResponse, Some(Wrapped("failed to read request body", req.body.cause)), None;
      }
      if req.url.None? {
        return EmptyResponse, Some(Sentinel(LegacyInvalidURL)), None;
      }
      var headers := CopyMap(req.header);
      var pbReq := CallRequest(req.httpMethod, req.url.value.text, cfg.insecureSkipVerify, headers, BodyBytes(req.body));
      var call;
      resp, err, call := Call(pbReq, reply);
      sent := Some(call);
    }
  }
}
