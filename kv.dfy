/** The key-value client (package kv): validate, call the host once at (namespace, "kvstore", op),
    decode, check the status. Unlike the HTTP capability, a status is good when it is absent or
    its code is 0; Get alone turns 404 into ErrKeyNotFound. */
module Kv {
  import opened Errors
  import opened Wire
  import HttpClient
  import HttpTypes

  /** Client options: Namespace, SDKConfig.Namespace and the HostCall override. */
  datatype Config<H> = Config(namespace: string, sdkNamespace: string, hostCall: Option<H>)

  /** kvClient: a namespace and a host-call function, neither of which ever changes. */
  datatype Client<H> = Client(namespace: string, hostCall: H)

  /** The kvstore request messages. */
  datatype KvRequest =
    | GetReq(key: string)
    | SetReq(key: string, data: Bytes)
    | DeleteReq(key: string)
    | KeysReq(returnProto: bool)

  /** The kvstore response messages, each with an optional status. */
  datatype GetResponse = GetResponse(status: Option<Status>, data: Bytes)
  datatype StatusResponse = StatusResponse(status: Option<Status>)
  datatype KeysResponse = KeysResponse(status: Option<Status>, keys: seq<string>)

  /** What an operation returns, together with the host call it made (None: no call). */
  datatype Outcome<T> = Outcome(value: T, err: Option<Error>, sent: Option<HostCall<KvRequest>>)

  /** New: Namespace, else SDKConfig.Namespace, else "default"; a nil HostCall falls back to waPC's.
      The error result is always nil and is not modelled. */
  function New<H>(config: Config<H>, wapcHostCall: H): (c: Client<H>)
    ensures c.namespace != ""
    ensures config.namespace != "" ==> c.namespace == config.namespace
    ensures config.namespace == "" && config.sdkNamespace != "" ==> c.namespace == config.sdkNamespace
    ensures config.namespace == "" && config.sdkNamespace == "" ==> c.namespace == DefaultNamespace
    ensures c.hostCall == (if config.hostCall.Some? then config.hostCall.value else wapcHostCall)
  {
    var ns := if config.namespace != "" then config.namespace
              else if config.sdkNamespace != "" then config.sdkNamespace
              else DefaultNamespace;
    Client(ns, if config.hostCall.Some? then config.hostCall.value else wapcHostCall)
  }

  /** The status convention of the kvstore capability: absent, or code 0. */
  predicate StatusOk(s: Option<Status>) {
    s.None? || s.value.code == 0
  }

  /** The host call of an operation of this client. */
  function Address<H>(c: Client<H>, operation: string, req: KvRequest): HostCall<KvRequest> {
    HostCall(c.namespace, "kvstore", operation, req)
  }

  /** The error of the transport and decoding steps, shared by every operation: the transport
      error wins over the payload; each is formatted with %v, so only the sentinel is matchable. */
  function ReplyError<M>(reply: HostReply<M>): (e: Option<Error>)
    ensures e.None? <==> reply.err.None? && reply.payload.Decoded?
    ensures reply.err.Some? ==> forall k :: Fails(e, k) <==> k == KvHostCall
    ensures reply.err.None? && reply.payload.DecodeFail? ==> forall k :: Fails(e, k) <==> k == KvHostResponseInvalid
  {
    if reply.err.Some? then
      AnnotatedHidesNote(KvHostCall, reply.err.value);
      Some(Annotated(Sentinel(KvHostCall), reply.err.value))
    else if reply.payload.DecodeFail? then
      AnnotatedHidesNote(KvHostResponseInvalid, reply.payload.cause);
      Some(Annotated(Sentinel(KvHostResponseInvalid), reply.payload.cause))
    else None
  }

  /** Close releases nothing and never fails. */
  function Close<H>(c: Client<H>): (err: Option<Error>)
    ensures err.None?
  {
    None
  }

  /** Get: an empty key fails before the host call; otherwise the stored data, ErrKeyNotFound for
      status 404, or ErrHostResponseInvalid for any other non-zero code (200 included). */
  function Get<H>(c: Client<H>, key: string, reply: HostReply<GetResponse>): (o: Outcome<Bytes>)
    ensures o.sent.None? <==> key == ""
    ensures key == "" ==> o.err == Some(Sentinel(KvInvalidKey))
    ensures key != "" ==> o.sent == Some(Address(c, "get", GetReq(key)))
    ensures o.err.None? <==>
      key != "" && reply.err.None? && reply.payload.Decoded? && StatusOk(reply.payload.msg.status)
    ensures o.err.None? ==> o.value == reply.payload.msg.data
    ensures o.err.Some? ==> o.value == []
    ensures Fails(o.err, KvInvalidKey) <==> key == ""
    ensures Fails(o.err, KvHostCall) <==> key != "" && reply.err.Some?
    ensures Fails(o.err, KvKeyNotFound) <==>
      key != "" && reply.err.None? && reply.payload.Decoded?
      && reply.payload.msg.status.Some? && reply.payload.msg.status.value.code == 404
    ensures Fails(o.err, KvHostResponseInvalid) <==>
      key != "" && reply.err.None?
      && (reply.payload.DecodeFail?
          || (!StatusOk(reply.payload.msg.status) && reply.payload.msg.status.value.code != 404))
    // The host's error and the decode failure are formatted with %v: only the client's sentinel matches.
    ensures key != "" && reply.err.Some? ==> forall k :: Fails(o.err, k) <==> k == KvHostCall
    ensures key != "" && reply.err.None? && reply.payload.DecodeFail? ==>
      forall k :: Fails(o.err, k) <==> k == KvHostResponseInvalid
    ensures key != "" && reply.err.None? && reply.payload.Decoded? && !StatusOk(reply.payload.msg.status) ==>
      o.err == Some(Sentinel(if reply.payload.msg.status.value.code == 404 then KvKeyNotFound else KvHostResponseInvalid))
  {
    if key == "" then Outcome([], Some(Sentinel(KvInvalidKey)), None)
    else
      var sent := Some(Address(c, "get", GetReq(key)));
      var e := ReplyError(reply);
      if e.Some? then Outcome([], e, sent)
      else
        var s := reply.payload.msg.status;
        if !StatusOk(s) then
          if s.value.code == 404 then Outcome([], Some(Sentinel(KvKeyNotFound)), sent)
          else Outcome([], Some(Sentinel(KvHostResponseInvalid)), sent)
        else Outcome(reply.payload.msg.data, None, sent)
  }

  /** The status check of Set, Delete and Keys: any non-zero code is an invalid response. */
  function StatusError(s: Option<Status>): Option<Error> {
    if StatusOk(s) then None else Some(Sentinel(KvHostResponseInvalid))
  }

  /** Set: the key is checked before the value; a nil value is refused, an empty one is stored. */
  function Set<H>(c: Client<H>, key: string, value: Option<Bytes>, reply: HostReply<StatusResponse>): (o: Outcome<()>)
    ensures o.sent.None? <==> key == "" || value.None?
    ensures key == "" ==> o.err == Some(Sentinel(KvInvalidKey))
    ensures key != "" && value.None? ==> o.err == Some(Sentinel(KvInvalidValue))
    ensures o.sent.Some? ==> o.sent == Some(Address(c, "set", SetReq(key, value.value)))
    ensures o.err.None? <==>
      o.sent.Some? && reply.err.None? && reply.payload.Decoded? && StatusOk(reply.payload.msg.status)
    ensures !Fails(o.err, KvKeyNotFound)
    ensures Fails(o.err, KvHostCall) <==> o.sent.Some? && reply.err.Some?
    ensures Fails(o.err, KvHostResponseInvalid) <==>
      o.sent.Some? && reply.err.None? && (reply.payload.DecodeFail? || !StatusOk(reply.payload.msg.status))
    ensures o.sent.Some? && reply.err.Some? ==> forall k :: Fails(o.err, k) <==> k == KvHostCall
    ensures o.sent.Some? && reply.err.None? && reply.payload.DecodeFail? ==>
      forall k :: Fails(o.err, k) <==> k == KvHostResponseInvalid
    ensures o.sent.Some? && reply.err.None? && reply.payload.Decoded? && !StatusOk(reply.payload.msg.status) ==>
      o.err == Some(Sentinel(KvHostResponseInvalid))
  {
    if key == "" then Outcome((), Some(Sentinel(KvInvalidKey)), None)
    else if value.None? then Outcome((), Some(Sentinel(KvInvalidValue)), None)
    else
      var sent := Some(Address(c, "set", SetReq(key, value.value)));
      var e := ReplyError(reply);
      if e.Some? then Outcome((), e, sent)
      else Outcome((), StatusError(reply.payload.msg.status), sent)
  }

  /** Delete: an empty key fails before the host call; there is no not-found case. */
  function Delete<H>(c: Client<H>, key: string, reply: HostReply<StatusResponse>): (o: Outcome<()>)
    ensures o.sent.None? <==> key == ""
    ensures key == "" ==> o.err == Some(Sentinel(KvInvalidKey))
    ensures key != "" ==> o.sent == Some(Address(c, "delete", DeleteReq(key)))
    ensures o.err.None? <==>
      key != "" && reply.err.None? && reply.payload.Decoded? && StatusOk(reply.payload.msg.status)
    ensures !Fails(o.err, KvKeyNotFound)
    ensures Fails(o.err, KvHostCall) <==> key != "" && reply.err.Some?
    ensures Fails(o.err, KvHostResponseInvalid) <==>
      key != "" && reply.err.None? && (reply.payload.DecodeFail? || !StatusOk(reply.payload.msg.status))
    ensures key != "" && reply.err.Some? ==> forall k :: Fails(o.err, k) <==> k == KvHostCall
    ensures key != "" && reply.err.None? && reply.payload.DecodeFail? ==>
      forall k :: Fails(o.err, k) <==> k == KvHostResponseInvalid
    ensures key != "" && reply.err.None? && reply.payload.Decoded? && !StatusOk(reply.payload.msg.status) ==>
      o.err == Some(Sentinel(KvHostResponseInvalid))
  {
    if key == "" then Outcome((), Some(Sentinel(KvInvalidKey)), None)
    else
      var sent := Some(Address(c, "delete", DeleteReq(key)));
      var e := ReplyError(reply);
      if e.Some? then Outcome((), e, sent)
      else Outcome((), StatusError(reply.payload.msg.status), sent)
  }

  /** Keys: always calls the host, asking for a protobuf reply, and returns its key list as is. */
  function Keys<H>(c: Client<H>, reply: HostReply<KeysResponse>): (o: Outcome<seq<string>>)
    ensures o.sent == Some(Address(c, "keys", KeysReq(true)))
    ensures o.err.None? <==> reply.err.None? && reply.payload.Decoded? && StatusOk(reply.payload.msg.status)
    ensures o.err.None? ==> o.value == reply.payload.msg.keys
    ensures o.err.Some? ==> o.value == []
    ensures !Fails(o.err, KvKeyNotFound) && !Fails(o.err, KvInvalidKey)
    ensures Fails(o.err, KvHostCall) <==> reply.err.Some?
    ensures Fails(o.err, KvHostResponseInvalid) <==>
      reply.err.None? && (reply.payload.DecodeFail? || !StatusOk(reply.payload.msg.status))
    ensures reply.err.Some? ==> forall k :: Fails(o.err, k) <==> k == KvHostCall
    ensures reply.err.None? && reply.payload.DecodeFail? ==> forall k :: Fails(o.err, k) <==> k == KvHostResponseInvalid
    ensures reply.err.None? && reply.payload.Decoded? && !StatusOk(reply.payload.msg.status) ==>
      o.err == Some(Sentinel(KvHostResponseInvalid))
  {
    var sent := Some(Address(c, "keys", KeysReq(true)));
    var e := ReplyError(reply);
    if e.Some? then Outcome([], e, sent)
    else if !StatusOk(reply.payload.msg.status) then Outcome([], StatusError(reply.payload.msg.status), sent)
    else Outcome(reply.payload.msg.keys, None, sent)
  }

  /** The two capabilities read the same status code differently: the KV client succeeds on
      code 0 alone (404 is a missing key, any other code an invalid response) and the HTTP
      client on 200 and 206 alone, whatever the messages, so no code is success for both. */
  lemma StatusConventionsDiffer<H>(c: Client<H>, key: string, data: Bytes, call: HttpTypes.CallResponse,
                                   code: int32, kvMessage: string, httpMessage: string)
    requires key != ""
    ensures var kv := Get(c, key, HostReply(Decoded(GetResponse(Some(Status(code, kvMessage)), data)), None));
      (kv.err.None? <==> code == 0)
      && (code == 404 ==> Fails(kv.err, KvKeyNotFound))
      && (code != 0 && code != 404 ==> Fails(kv.err, KvHostResponseInvalid))
    ensures HttpClient.CallResult(HostReply(Decoded(call.(status := Some(Status(code, httpMessage)))), None)).1.None?
      <==> code == 200 || code == 206
  {
  }
}
