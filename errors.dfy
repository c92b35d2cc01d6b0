/** Error values of the SDK and the rules by which Go's `errors.Is` matches them. */
module Errors {

  datatype Option<+T> = None | Some(value: T)

  /** A value or the error a Go function returned instead of it. */
  datatype Result<+T> = Success(value: T) | Failure(error: Error)

  /** The package-level sentinel errors, each an `errors.New` variable. Every package declares
      its own variables, so kv's ErrHostCall and the sdk's ErrHostCall are different sentinels. */
  datatype Kind =
    // errors.go (package sdk)
    | HostCallFailed | HostResponseInvalid | HostError
    // httpclient/http.go
    | ClientInvalidURL | ClientMarshalRequest | ClientReadBody | ClientUnmarshalResponse
    | ClientInvalidMethod | ClientNilRequest
    // kv/kv.go
    | KvInvalidKey | KvInvalidValue | KvKeyNotFound | KvHostResponseInvalid | KvHostCall
    // http/http.go (the legacy client)
    | LegacyInvalidURL | LegacyReadBody | LegacyUnmarshalResponse | LegacyHostCall
    // hostmock/hostmock.go
    | UnexpectedNamespace | UnexpectedCapability | UnexpectedFunction

  /** The shapes of error the core builds. */
  datatype Error =
    | Sentinel(kind: Kind)                  // a package-level errors.New variable
    | Text(msg: string)                     // errors.New / fmt.Errorf with no %w operand
    | Wrapped(context: string, inner: Error) // fmt.Errorf whose one error operand is a %w
    | Annotated(inner: Error, note: Error)  // fmt.Errorf("%w: %v", inner, note)
    | Joined(errs: seq<Error>)              // errors.Join of non-nil errors

  /** errors.Is(e, k): a sentinel matches itself; %w and errors.Join make their operands
      matchable, while the %v operand and plain text match nothing. */
  predicate Is(e: Error, k: Kind)
    decreases e
  {
    match e
    case Sentinel(s) => s == k
    case Text(_) => false
    case Wrapped(_, inner) => Is(inner, k)
    case Annotated(inner, _) => Is(inner, k)
    case Joined(errs) => exists i :: 0 <= i < |errs| && Is(errs[i], k)
  }

  /** errors.Is on a possibly-nil error. */
  predicate Fails(err: Option<Error>, k: Kind) {
    err.Some? && Is(err.value, k)
  }

  /** errors.Join(sentinel, cause) answers errors.Is for the sentinel and for every cause's kind, and nothing else. */
  lemma JoinedWithSentinel(k: Kind, cause: Error)
    ensures forall t :: Is(Joined([Sentinel(k), cause]), t) <==> t == k || Is(cause, t)
  {
    var errs := [Sentinel(k), cause];
    forall t ensures Is(Joined(errs), t) <==> t == k || Is(cause, t) {
      if t == k {
        assert Is(errs[0], t);
      }
      if Is(cause, t) {
        assert Is(errs[1], t);
      }
    }
  }

  /** fmt.Errorf("%w: %v", k, note) is identifiable only as k, whatever note matches. */
  lemma AnnotatedHidesNote(k: Kind, note: Error)
    ensures forall t :: Is(Annotated(Sentinel(k), note), t) <==> t == k
  {
    forall t ensures Is(Annotated(Sentinel(k), note), t) <==> t == k {
      assert Is(Annotated(Sentinel(k), note), t) == Is(Sentinel(k), t);
    }
  }
}
