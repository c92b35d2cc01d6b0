/** The scripted host (package hostmock): a forced failure, then the namespace, capability and
    function checks, then the payload validator, then the configured response. */
module HostMock {
  import opened Errors
  import opened Wire

  /** Config and Mock carry the same fields. The validator is a pure function of the payload;
      the Response callback is represented by the bytes it returns (None: no callback). */
  datatype Config = Config(
    expectedNamespace: string, expectedCapability: string, expectedFunction: string,
    error: Option<Error>, fail: bool,
    payloadValidator: Option<Bytes -> Option<Error>>, response: Option<Bytes>)

  datatype Mock = Mock(
    expectedNamespace: string, expectedCapability: string, expectedFunction: string,
    error: Option<Error>, fail: bool,
    payloadValidator: Option<Bytes -> Option<Error>>, response: Option<Bytes>)

  /** New copies every field and never fails. */
  function New(config: Config): (r: Result<Mock>)
    ensures r.Success?
    ensures r.value.expectedNamespace == config.expectedNamespace
    ensures r.value.expectedCapability == config.expectedCapability
    ensures r.value.expectedFunction == config.expectedFunction
    ensures r.value.error == config.error && r.value.fail == config.fail
    ensures r.value.payloadValidator == config.payloadValidator && r.value.response == config.response
  {
    Success(Mock(config.expectedNamespace, config.expectedCapability, config.expectedFunction,
                 config.error, config.fail, config.payloadValidator, config.response))
  }

  /** The first routing check a call fails, in the order namespace, capability, function.
      Comparison is plain equality: an empty expectation matches only an empty argument. */
  function Mismatch(m: Mock, namespace: string, capability: string, fn: string): (k: Option<Kind>)
    ensures k.None? <==>
      namespace == m.expectedNamespace && capability == m.expectedCapability && fn == m.expectedFunction
    ensures k == Some(UnexpectedNamespace) <==> namespace != m.expectedNamespace
    ensures k == Some(UnexpectedCapability) <==>
      namespace == m.expectedNamespace && capability != m.expectedCapability
    ensures k == Some(UnexpectedFunction) <==>
      namespace == m.expectedNamespace && capability == m.expectedCapability && fn != m.expectedFunction
  {
    if m.expectedNamespace != namespace then Some(UnexpectedNamespace)
    else if m.expectedCapability != capability then Some(UnexpectedCapability)
    else if m.expectedFunction != fn then Some(UnexpectedFunction)
    else None
  }

  /** The routing error: the sentinel, wrapped with %w, after the expected and actual values. */
  function MismatchError(k: Kind, what: string, expected: string, got: string): (e: Error)
    ensures forall t :: Is(e, t) <==> t == k
  {
    Wrapped(": Expected " + what + " " + expected + ", got " + got, Sentinel(k))
  }

  /** Mock.HostCall: the returned bytes and error. Bytes and an error never come back together. */
  function HostCall(m: Mock, namespace: string, capability: string, fn: string, payload: Bytes): (r: (Option<Bytes>, Option<Error>))
    ensures r.1.Some? ==> r.0.None?
    ensures m.fail ==> r.1 == Some(if m.error.Some? then m.error.value else Text("Failed"))
    ensures !m.fail && Mismatch(m, namespace, capability, fn).Some? ==>
      r.0.None? && r.1.Some?
      && forall t :: Is(r.1.value, t) <==> Mismatch(m, namespace, capability, fn) == Some(t)
    ensures !m.fail && Mismatch(m, namespace, capability, fn).None? && m.payloadValidator.Some?
            && m.payloadValidator.value(payload).Some? ==>
      r.1 == m.payloadValidator.value(payload)
    ensures r.1.None? <==>
      !m.fail && Mismatch(m, namespace, capability, fn).None?
      && (m.payloadValidator.None? || m.payloadValidator.value(payload).None?)
    ensures r.1.None? ==> r.0 == m.response
  {
    if m.fail && m.error.Some? then (None, m.error)
    else if m.fail then (None, Some(Text("Failed")))
    else if m.expectedNamespace != namespace then
      (None, Some(MismatchError(UnexpectedNamespace, "namespace", m.expectedNamespace, namespace)))
    else if m.expectedCapability != capability then
      (None, Some(MismatchError(UnexpectedCapability, "capability", m.expectedCapability, capability)))
    else if m.expectedFunction != fn then
      (None, Some(MismatchError(UnexpectedFunction, "function", m.expectedFunction, fn)))
    else if m.payloadValidator.Some? && m.payloadValidator.value(payload).Some? then
      (None, m.payloadValidator.value(payload))
    else (m.response, None)
  }

  /** Leaving an expectation empty is not a wildcard: a call with any non-empty namespace is
      refused as ErrUnexpectedNamespace. */
  lemma EmptyExpectationIsNoWildcard(m: Mock, namespace: string, capability: string, fn: string, payload: Bytes)
    requires !m.fail && m.expectedNamespace == "" && namespace != ""
    ensures Fails(HostCall(m, namespace, capability, fn, payload).1, UnexpectedNamespace)
    ensures HostCall(m, namespace, capability, fn, payload).0.None?
  {
  }

  /** The validator is consulted only after routing passes: a misrouted call's result does not
      depend on it, or on the response. */
  lemma ValidatorAfterRouting(m: Mock, v: Option<Bytes -> Option<Error>>, resp: Option<Bytes>,
                              namespace: string, capability: string, fn: string, payload: Bytes)
    requires Mismatch(m, namespace, capability, fn).Some?
    ensures HostCall(m.(payloadValidator := v, response := resp), namespace, capability, fn, payload)
         == HostCall(m, namespace, capability, fn, payload)
  {
  }

  /** A forced failure comes before routing: its result depends on neither the address nor the payload. */
  lemma FailureBeforeRouting(m: Mock, n1: string, c1: string, f1: string, p1: Bytes, n2: string, c2: string, f2: string, p2: Bytes)
    requires m.fail
    ensures HostCall(m, n1, c1, f1, p1) == HostCall(m, n2, c2, f2, p2)
  {
  }
}
