/** The current HTTP client (package httpclient): validation before the host call, one host call
    to httpclient/call, decoding, and the shared host-status ladder. */
module HttpClient {
  import opened Errors
  import opened Wire
  import opened HttpTypes

  const HostStatusOK: int32 := 200
  const HostStatusPartial: int32 := 206
  const HostStatusBadInput: int32 := 400
  const HostStatusMissing: int32 := 404
  const HostStatusError: int32 := 500

  /** The methods NewRequest accepts: those of section 9.3 of RFC 9110 and PATCH (RFC 5789). */
  const AllowedMethods: set<string> :=
    {"GET", "HEAD", "POST", "PUT", "PATCH", "DELETE", "CONNECT", "OPTIONS", "TRACE"}

  /** Client construction options: SDKConfig.Namespace, InsecureSkipVerify and the HostCall override. */
  datatype Config<H> = Config(sdkNamespace: string, insecureSkipVerify: bool, hostCall: Option<H>)

  function IsValidMethod(m: string): (r: bool)
    ensures r <==> m in AllowedMethods
  {
    match m
    case "GET" => true
    case "HEAD" => true
    case "POST" => true
    case "PUT" => true
    case "PATCH" => true
    case "DELETE" => true
    case "CONNECT" => true
    case "OPTIONS" => true
    case "TRACE" => true
    case _ => false
  }

  /** Methods are matched exactly: every accepted method is spelled in upper case, so any
      spelling with a lower-case letter is refused. */
  lemma MethodsAreCaseSensitive(m: string, i: int)
    requires 0 <= i < |m| && 'a' <= m[i] <= 'z'
    ensures !IsValidMethod(m)
  {
  }

  /** The URL check of Get, Post, Put, Delete and NewRequest: it parses and has a non-empty Host
      (the authority of section 3.2 of RFC 3986). */
  predicate HasHost(u: UrlArg) {
    u.parse.Parsed? && u.parse.url.host != ""
  }

  /** The request headers of Post and Put: Content-Type only when a content type is given. */
  function ContentTypeHeader(contentType: string): (h: Header)
    ensures "Content-Type" in h <==> contentType != ""
    ensures "Content-Type" in h ==> h["Content-Type"] == [contentType]
    ensures h.Keys <= {"Content-Type"}
  {
    if contentType != "" then map["Content-Type" := [contentType]] else map[]
  }

  function DigitChar(d: nat): char
    requires d < 10
  {
    ('0' as int + d) as char
  }

  predicate AllDigits(s: string) {
    forall i :: 0 <= i < |s| ==> '0' <= s[i] <= '9'
  }

  /** The number a string of decimal digits denotes, most significant digit first. */
  function DigitsValue(s: string): nat
    requires AllDigits(s)
  {
    if s == [] then 0 else DigitsValue(s[..|s| - 1]) * 10 + (s[|s| - 1] as int - '0' as int)
  }

  /** %d of a natural number: digits only, no leading zero, and reading them back gives n. */
  function Digits(n: nat): (s: string)
    ensures |s| > 0 && AllDigits(s)
    ensures DigitsValue(s) == n
    ensures |s| > 1 ==> s[0] != '0'
    decreases n
  {
    if n < 10 then [DigitChar(n)]
    else
      var s := Digits(n / 10) + [DigitChar(n % 10)];
      assert s[..|s| - 1] == Digits(n / 10);
      s
  }

  /** %d of an integer: a minus sign exactly for a negative number, then the digits of its magnitude. */
  function Decimal(n: int): (s: string)
    ensures |s| > 0 && (s[0] == '-' <==> n < 0)
    ensures n < 0 ==> AllDigits(s[1..]) && DigitsValue(s[1..]) == -n
    ensures n >= 0 ==> AllDigits(s) && DigitsValue(s) == n
    ensures n >= 0 && |s| > 1 ==> s[0] != '0'
    ensures n < 0 ==> |s| > 1 && (|s| > 2 ==> s[1] != '0')
  {
    if n < 0 then
      var s := "-" + Digits(-n);
      assert s[1..] == Digits(-n);
      s
    else Digits(n)
  }

  /** The detail of a host failure status: "host status N", followed by ": msg" only when the
      host sent a message. */
  function HostStatusDetail(code: int32, msg: string): (d: string)
    ensures |"host status " + Decimal(code as int)| <= |d|
    ensures d[..|"host status " + Decimal(code as int)|] == "host status " + Decimal(code as int)
    ensures msg == "" ==> d == "host status " + Decimal(code as int)
    ensures msg != "" ==> |d| == |"host status " + Decimal(code as int)| + 2 + |msg| && d[|d| - |msg|..] == msg
    ensures msg != "" ==>
      d[|"host status " + Decimal(code as int)|..|"host status " + Decimal(code as int)| + 2] == ": "
  {
    var base := "host status " + Decimal(code as int);
    if msg != "" then base + ": " + msg else base
  }

  /** The reply carries a decoded payload with a status, and no transport error. */
  predicate Delivered(reply: HostReply<CallResponse>) {
    reply.err.None? && reply.payload.Decoded? && reply.payload.msg.status.Some?
  }

  function HostCode(reply: HostReply<CallResponse>): int32
    requires Delivered(reply)
  {
    reply.payload.msg.status.value.code
  }

  /** The Response built on success: the HTTP code is the payload's `code` field (not the host
      status), the status text its standard reason phrase, all headers, and a body iff non-empty. */
  function SuccessResponse(msg: CallResponse): (resp: Response)
    ensures resp.statusCode == msg.code as int && resp.status == StatusText(msg.code as int)
    ensures resp.header == Some(msg.headers)
    ensures resp.body.Some? <==> |msg.body| > 0
    ensures resp.body.Some? ==> resp.body.value == msg.body
  {
    Response(StatusText(msg.code as int), msg.code as int, Some(msg.headers), BodyOf(msg.body))
  }

  /** What doHTTPCall returns for the host's reply. */
  function CallResult(reply: HostReply<CallResponse>): (r: (Response, Option<Error>))
    // A transport error decides the outcome whatever bytes came back.
    ensures reply.err.Some? ==> r.0 == EmptyResponse
    ensures reply.err.Some? ==> r.1 == Some(Joined([Sentinel(HostCallFailed), reply.err.value]))
    // A decode failure is its own kind.
    ensures reply.err.None? && reply.payload.DecodeFail? ==> r.0 == EmptyResponse
    ensures reply.err.None? && reply.payload.DecodeFail? ==>
      r.1 == Some(Joined([Sentinel(ClientUnmarshalResponse), reply.payload.cause]))
    // A payload without status is an invalid response.
    ensures reply.err.None? && reply.payload.Decoded? && reply.payload.msg.status.None? ==>
      r == (EmptyResponse, Some(Sentinel(HostResponseInvalid)))
    // The status ladder: exactly one of success, host error, invalid response.
    ensures Delivered(reply) ==> (r.1.None? <==> HostCode(reply) in {200, 206})
    ensures Delivered(reply) ==> (Fails(r.1, HostError) <==> HostCode(reply) in {400, 404, 500})
    ensures Delivered(reply) ==>
      (Fails(r.1, HostResponseInvalid) <==> HostCode(reply) !in {200, 206, 400, 404, 500})
    ensures Delivered(reply) && HostCode(reply) in {400, 404, 500} ==>
      r.1 == Some(Joined([Sentinel(HostError),
                          Text(HostStatusDetail(HostCode(reply), reply.payload.msg.status.value.message))]))
    ensures Delivered(reply) && HostCode(reply) !in {200, 206, 400, 404, 500} ==>
      r.1 == Some(Joined([Sentinel(HostResponseInvalid),
                          Text("unexpected host status code " + Decimal(HostCode(reply) as int))]))
    ensures r.1.None? <==> Delivered(reply) && HostCode(reply) in {200, 206}
    ensures r.1.Some? ==> r.0 == EmptyResponse
    ensures r.1.None? ==> r.0 == SuccessResponse(reply.payload.msg)
  {
    if reply.err.Some? then
      JoinedWithSentinel(HostCallFailed, reply.err.value);
      (EmptyResponse, Some(Joined([Sentinel(HostCallFailed), reply.err.value])))
    else if reply.payload.DecodeFail? then
      JoinedWithSentinel(ClientUnmarshalResponse, reply.payload.cause);
      (EmptyResponse, Some(Joined([Sentinel(ClientUnmarshalResponse), reply.payload.cause])))
    else if reply.payload.msg.status.None? then
      (EmptyResponse, Some(Sentinel(HostResponseInvalid)))
    else
      var status := reply.payload.msg.status.value;
      if status.code == HostStatusOK || status.code == HostStatusPartial then
        (SuccessResponse(reply.payload.msg), None)
      else if status.code == HostStatusBadInput || status.code == HostStatusMissing || status.code == HostStatusError then
        var detail := Text(HostStatusDetail(status.code, status.message));
        JoinedWithSentinel(HostError, detail);
        (EmptyResponse, Some(Joined([Sentinel(HostError), detail])))
      else
        var detail := Text("unexpected host status code " + Decimal(status.code as int));
        JoinedWithSentinel(HostResponseInvalid, detail);
        (EmptyResponse, Some(Joined([Sentinel(HostResponseInvalid), detail])))
  }

  /** No failure is conflated with another: a transport or decode error matches its own sentinel
      and exactly the kinds of its cause, and a status failure matches its sentinel alone. */
  lemma CallResultKinds(reply: HostReply<CallResponse>, k: Kind)
    ensures reply.err.Some? ==>
      (Fails(CallResult(reply).1, k) <==> k == HostCallFailed || Is(reply.err.value, k))
    ensures reply.err.None? && reply.payload.DecodeFail? ==>
      (Fails(CallResult(reply).1, k) <==> k == ClientUnmarshalResponse || Is(reply.payload.cause, k))
    ensures reply.err.None? && reply.payload.Decoded? && reply.payload.msg.status.None? ==>
      (Fails(CallResult(reply).1, k) <==> k == HostResponseInvalid)
    ensures Delivered(reply) && HostCode(reply) in {400, 404, 500} ==>
      (Fails(CallResult(reply).1, k) <==> k == HostError)
    ensures Delivered(reply) && HostCode(reply) !in {200, 206, 400, 404, 500} ==>
      (Fails(CallResult(reply).1, k) <==> k == HostResponseInvalid)
  {
    if reply.err.Some? {
      JoinedWithSentinel(HostCallFailed, reply.err.value);
    } else if reply.payload.DecodeFail? {
      JoinedWithSentinel(ClientUnmarshalResponse, reply.payload.cause);
    } else if reply.payload.msg.status.Some? {
      var status := reply.payload.msg.status.value;
      JoinedWithSentinel(HostError, Text(HostStatusDetail(status.code, status.message)));
      JoinedWithSentinel(HostResponseInvalid, Text("unexpected host status code " + Decimal(status.code as int)));
    }
  }

  /** The host status decides the outcome alone: the status message never changes it. */
  lemma MessageNeverClassifies(msg: CallResponse, err: Option<Error>, code: int32, m1: string, m2: string, k: Kind)
    ensures var r1 := CallResult(HostReply(Decoded(msg.(status := Some(Status(code, m1)))), err));
            var r2 := CallResult(HostReply(Decoded(msg.(status := Some(Status(code, m2)))), err));
            r1.0 == r2.0 && r1.1.None? == r2.1.None? && (Fails(r1.1, k) <==> Fails(r2.1, k))
  {
    JoinedWithSentinel(HostError, Text(HostStatusDetail(code, m1)));
    JoinedWithSentinel(HostError, Text(HostStatusDetail(code, m2)));
  }

  /** Partial success (206) is success: the response is built from the payload's own HTTP code. */
  lemma PartialIsSuccess(msg: CallResponse)
    requires msg.status.Some? && msg.status.value.code == 206
    ensures CallResult(HostReply(Decoded(msg), None)) == (SuccessResponse(msg), None)
  {
  }

  /** NewRequest checks the method first, then the URL; the request starts with an empty header
      and keeps the body reader as given. */
  function NewRequest(m: string, url: UrlArg, body: Reader): (r: Result<Request>)
    ensures !IsValidMethod(m) ==> r == Failure(Sentinel(ClientInvalidMethod))
    ensures IsValidMethod(m) && !HasHost(url) ==> r == Failure(Sentinel(ClientInvalidURL))
    ensures r.Success? <==> m in AllowedMethods && HasHost(url)
    ensures r.Success? ==> r.value == Request(m, Some(url.parse.url), map[], body)
  {
    if !IsValidMethod(m) then Failure(Sentinel(ClientInvalidMethod))
    else if !HasHost(url) then Failure(Sentinel(ClientInvalidURL))
    else Success(Request(m, Some(url.parse.url), map[], body))
  }

  /** What Do accepts before touching the body: a request with a URL that has a Host. */
  predicate DoAccepts(req: Option<Request>) {
    req.Some? && req.value.url.Some? && req.value.url.value.host != ""
  }

  /** Every request NewRequest builds passes Do's checks. */
  lemma NewRequestPassesDo(m: string, url: UrlArg, body: Reader)
    requires NewRequest(m, url, body).Success?
    ensures DoAccepts(Some(NewRequest(m, url, body).value))
  {
  }

  class HTTPClient<H> {
    var cfg: Config<H>
    var hostCall: H

    /** New: an empty namespace becomes the default one; a missing HostCall falls back to waPC's. */
    constructor New(config: Config<H>, wapcHostCall: H)
      ensures cfg.sdkNamespace == (if config.sdkNamespace == "" then DefaultNamespace else config.sdkNamespace)
      ensures cfg.insecureSkipVerify == config.insecureSkipVerify && cfg.hostCall == config.hostCall
      ensures hostCall == (if config.hostCall.Some? then config.hostCall.value else wapcHostCall)
    {
      cfg := config;
      hostCall := wapcHostCall;
      new;
      if cfg.sdkNamespace == "" {
        cfg := cfg.(sdkNamespace := DefaultNamespace);
      }
      if config.hostCall.Some? {
        hostCall := config.hostCall.value;
      }
    }

    /** The host call for a request: always addressed (namespace, "httpclient", "call"). */
    function Outgoing(req: CallRequest): HostCall<CallRequest>
      reads this
    {
      HostCall(cfg.sdkNamespace, "httpclient", "call", req)
    }

    /** doHTTPCall: one host call, then decoding and the status ladder. */
    method DoHTTPCall(req: CallRequest, reply: HostReply<CallResponse>)
      returns (resp: Response, err: Option<Error>, sent: HostCall<CallRequest>)
      ensures sent == HostCall(cfg.sdkNamespace, "httpclient", "call", req)
      ensures (resp, err) == CallResult(reply)
    {
      sent := Outgoing(req);
      if reply.err.Some? {
        return EmptyResponse, Some(Joined([Sentinel(HostCallFailed), reply.err.value])), sent;
      }
      if reply.payload.DecodeFail? {
        return EmptyResponse, Some(Joined([Sentinel(ClientUnmarshalResponse), reply.payload.cause])), sent;
      }
      var r := reply.payload.msg;
      if r.status.None? {
        return EmptyResponse, Some(Sentinel(HostResponseInvalid)), sent;
      }
      var statusCode := r.status.value.code;
      if statusCode == HostStatusOK || statusCode == HostStatusPartial {
        // success path continues
      } else if statusCode == HostStatusBadInput || statusCode == HostStatusMissing || statusCode == HostStatusError {
        var detail := HostStatusDetail(statusCode, r.status.value.message);
        return EmptyResponse, Some(Joined([Sentinel(HostError), Text(detail)])), sent;
      } else {
        var detail := "unexpected host status code " + Decimal(statusCode as int);
        return EmptyResponse, Some(Joined([Sentinel(HostResponseInvalid), Text(detail)])), sent;
      }
      var httpCode := r.code as int;
      var header := CopyMap(r.headers);
      resp := Response(StatusText(httpCode), httpCode, Some(header), BodyOf(r.body));
      err := None;
    }

    method Get(url: UrlArg, reply: HostReply<CallResponse>)
      returns (resp: Response, err: Option<Error>, sent: Option<HostCall<CallRequest>>)
      ensures !HasHost(url) ==> resp == EmptyResponse && err == Some(Sentinel(ClientInvalidURL)) && sent == None
      ensures HasHost(url) ==>
        sent == Some(Outgoing(CallRequest("GET", url.raw, cfg.insecureSkipVerify, map[], [])))
        && (resp, err) == CallResult(reply)
    {
      if !HasHost(url) {
        return EmptyResponse, Some(Sentinel(ClientInvalidURL)), None;
      }
      var call;
      resp, err, call := DoHTTPCall(CallRequest("GET", url.raw, cfg.insecureSkipVerify, map[], []), reply);
      sent := Some(call);
    }

    method Delete(url: UrlArg, reply: HostReply<CallResponse>)
      returns (resp: Response, err: Option<Error>, sent: Option<HostCall<CallRequest>>)
      ensures !HasHost(url) ==> resp == EmptyResponse && err == Some(Sentinel(ClientInvalidURL)) && sent == None
      ensures HasHost(url) ==>
        sent == Some(Outgoing(CallRequest("DELETE", url.raw, cfg.insecureSkipVerify, map[], [])))
        && (resp, err) == CallResult(reply)
    {
      if !HasHost(url) {
        return EmptyResponse, Some(Sentinel(ClientInvalidURL)), None;
      }
      var call;
      resp, err, call := DoHTTPCall(CallRequest("DELETE", url.raw, cfg.insecureSkipVerify, map[], []), reply);
      sent := Some(call);
    }

    /** Post and Put: the URL is checked before the body is read; a read failure stops before the host call. */
    method Send(verb: string, url: UrlArg, contentType: string, body: Reader, reply: HostReply<CallResponse>)
      returns (resp: Response, err: Option<Error>, sent: Option<HostCall<CallRequest>>)
      ensures !HasHost(url) ==> resp == EmptyResponse && err == Some(Sentinel(ClientInvalidURL)) && sent == None
      ensures HasHost(url) && body.ReadErr? ==>
        resp == EmptyResponse && err == Some(Joined([Sentinel(ClientReadBody), body.cause])) && sent == None
      ensures HasHost(url) && !body.ReadErr? ==>
        sent == Some(Outgoing(CallRequest(verb, url.raw, cfg.insecureSkipVerify, ContentTypeHeader(contentType), BodyBytes(body))))
        && (resp, err) == CallResult(reply)
    {
      if !HasHost(url) {
        return EmptyResponse, Some(Sentinel(ClientInvalidURL)), None;
      }
      if body.ReadErr? {
        return EmptyResponse, Some(Joined([Sentinel(ClientReadBody), body.cause])), None;
      }
      var req := CallRequest(verb, url.raw, cfg.insecureSkipVerify, ContentTypeHeader(contentType), BodyBytes(body));
      var call;
      resp, err, call := DoHTTPCall(req, reply);
      sent := Some(call);
    }

    method Post(url: UrlArg, contentType: string, body: Reader, reply: HostReply<CallResponse>)
      returns (resp: Response, err: Option<Error>, sent: Option<HostCall<CallRequest>>)
      ensures !HasHost(url) ==> resp == EmptyResponse && err == Some(Sentinel(ClientInvalidURL)) && sent == None
      ensures HasHost(url) && body.ReadErr? ==>
        resp == EmptyResponse && err == Some(Joined([Sentinel(ClientReadBody), body.cause])) && sent == None
      ensures HasHost(url) && body.ReadErr? ==>
        Fails(err, ClientReadBody) && forall k :: Is(body.cause, k) ==> Fails(err, k)
      ensures HasHost(url) && !body.ReadErr? ==>
        sent == Some(Outgoing(CallRequest("POST", url.raw, cfg.insecureSkipVerify, ContentTypeHeader(contentType), BodyBytes(body))))
        && (resp, err) == CallResult(reply)
    {
      resp, err, sent := Send("POST", url, contentType, body, reply);
      if HasHost(url) && body.ReadErr? {
        JoinedWithSentinel(ClientReadBody, body.cause);
      }
    }

    method Put(url: UrlArg, contentType: string, body: Reader, reply: HostReply<CallResponse>)
      returns (resp: Response, err: Option<Error>, sent: Option<HostCall<CallRequest>>)
      ensures !HasHost(url) ==> resp == EmptyResponse && err == Some(Sentinel(ClientInvalidURL)) && sent == None
      ensures HasHost(url) && body.ReadErr? ==>
        resp == EmptyResponse && err == Some(Joined([Sentinel(ClientReadBody), body.cause])) && sent == None
      ensures HasHost(url) && body.ReadErr? ==>
        Fails(err, ClientReadBody) && forall k :: Is(body.cause, k) ==> Fails(err, k)
      ensures HasHost(url) && !body.ReadErr? ==>
        sent == Some(Outgoing(CallRequest("PUT", url.raw, cfg.insecureSkipVerify, ContentTypeHeader(contentType), BodyBytes(body))))
        && (resp, err) == CallResult(reply)
    {
      resp, err, sent := Send("PUT", url, contentType, body, reply);
      if HasHost(url) && body.ReadErr? {
        JoinedWithSentinel(ClientReadBody, body.cause);
      }
    }

    /** Do: nil request, then URL, then the body; the request headers are copied key for key. */
    method Do(req: Option<Request>, reply: HostReply<CallResponse>)
      returns (resp: Response, err: Option<Error>, sent: Option<HostCall<CallRequest>>)
      ensures req.None? ==> resp == EmptyResponse && err == Some(Sentinel(ClientNilRequest)) && sent == None
      ensures req.Some? && !DoAccepts(req) ==>
        resp == EmptyResponse && err == Some(Sentinel(ClientInvalidURL)) && sent == None
      ensures DoAccepts(req) && req.value.body.ReadErr? ==>
        resp == EmptyResponse && err == Some(Joined([Sentinel(ClientReadBody), req.value.body.cause])) && sent == None
      ensures DoAccepts(req) && !req.value.body.ReadErr? ==>
        sent == Some(Outgoing(CallRequest(req.value.httpMethod, req.value.url.value.text, cfg.insecureSkipVerify,
                                          req.value.header, BodyBytes(req.value.body))))
        && (resp, err) == CallResult(reply)
    {
      if req.None? {
        return EmptyResponse, Some(Sentinel(ClientNilRequest)), None;
      }
      var r := req.value;
      if r.url.None? || r.url.value.host == "" {
        return EmptyResponse, Some(Sentinel(ClientInvalidURL)), None;
      }
      if r.body.ReadErr? {
        return EmptyResponse, Some(Joined([Sentinel(ClientReadBody), r.body.cause])), None;
      }
      var headers := CopyMap(r.header);
      var pbReq := CallRequest(r.httpMethod, r.url.value.text, cfg.insecureSkipVerify, headers, BodyBytes(r.body));
      var call;
      resp, err, call := DoHTTPCall(pbReq, reply);
      sent := Some(call);
    }
  }
}
