/** The clients driven by the scripted host: what a routing error of the host looks like once
    each client has wrapped it. */
module Wiring {
  import opened Errors
  import opened Wire
  import HttpTypes
  import HostMock
  import Kv
  import HttpClient
  import LegacyHttp

  /** A host expecting another namespace refuses the call. The KV client formats the host's
      error with %v, so only its own ErrHostCall is identifiable. The current HTTP client joins
      ErrHostCall with the cause, so both are identifiable. The legacy client wraps only the
      cause, so the host's sentinel is identifiable and its own ErrHostCall is not. */
  lemma MisroutedCallThroughClients(m: HostMock.Mock, ns: string, key: string, payload: Bytes,
                                    kvPayload: Decoded<Kv.GetResponse>, httpPayload: Decoded<HttpTypes.CallResponse>)
    requires !m.fail && m.expectedNamespace != ns && key != ""
    ensures var e := HostMock.HostCall(m, ns, "kvstore", "get", payload).1;
      var got := Kv.Get(Kv.Client(ns, 0), key, HostReply(kvPayload, e)).err;
      Fails(got, KvHostCall) && !Fails(got, UnexpectedNamespace)
    ensures var e := HostMock.HostCall(m, ns, "httpclient", "call", payload).1;
      var got := HttpClient.CallResult(HostReply(httpPayload, e)).1;
      Fails(got, HostCallFailed) && Fails(got, UnexpectedNamespace)
    ensures var e := HostMock.HostCall(m, ns, "httpclient", "call", payload).1;
      var got := LegacyHttp.CallResult(HostReply(httpPayload, e)).1;
      Fails(got, UnexpectedNamespace) && !Fails(got, LegacyHostCall)
  {
    var kvErr := HostMock.HostCall(m, ns, "kvstore", "get", payload).1;
    assert HostMock.Mismatch(m, ns, "kvstore", "get") == Some(UnexpectedNamespace);
    assert kvErr.Some? && Is(kvErr.value, UnexpectedNamespace);
    var httpErr := HostMock.HostCall(m, ns, "httpclient", "call", payload).1;
    assert HostMock.Mismatch(m, ns, "httpclient", "call") == Some(UnexpectedNamespace);
    assert httpErr.Some? && Is(httpErr.value, UnexpectedNamespace) && !Is(httpErr.value, LegacyHostCall);
    HttpClient.CallResultKinds(HostReply(httpPayload, httpErr), HostCallFailed);
    HttpClient.CallResultKinds(HostReply(httpPayload, httpErr), UnexpectedNamespace);
  }
}
