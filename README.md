# Tarmac SDK host-call clients and test doubles, in Dafny

This project models the guest side of the Tarmac SDK for WebAssembly functions. A capability
client validates its arguments, makes exactly one waPC host call addressed as
`(namespace, capability, function)`, decodes the protobuf reply, classifies the host status and
returns sentinel errors that callers test with `errors.Is`. The model covers:

- **The current HTTP client** (`httpclient`). Its checks run before any host call: the method
  allow-list (section 9.3 of RFC 9110, plus PATCH from RFC 5789), a non-empty URL host
  (section 3.2 of RFC 3986) and a nil request. `doHTTPCall` holds the one status ladder:
  - 200 and 206 succeed;
  - 400, 404 and 500 become `ErrHostError`;
  - any other code is an invalid response.

  On success, the response takes its code from the payload's `code` field and its reason phrase
  from Go's `net/http.StatusText` table.
- **The legacy HTTP client** (`http`). It does no URL validation in Get and Delete, has no status
  dispatch, and its Do reads the body before it checks the URL.
- **The KV client** (`kv`). It treats an absent status or code 0 as OK, and 404 on Get as
  `ErrKeyNotFound`. Every other code, 200 included, is an invalid response.
- **The in-memory KV double** (`kv/mock`): a store, a per-operation override table and an
  append-only call log.
- **The HTTP double** (`http/mock`): responses keyed by `method + " " + url`, a default
  response, and the calls in order.
- **The scripted host** (`hostmock`). Its checks run in a fixed order: a forced failure, then
  namespace, capability and function, then the payload validator, then the response.

How the boundaries are modelled:

- **Host call.** Each operation takes the host's reply as a parameter,
  `HostReply(payload, err)`. The payload is already seen through decoding
  (`DecodeFail(cause) | Decoded(msg)`), and a transport error and bytes may come back together.
  Each operation also returns the host call it made, where `None` means the host was never called.
- **Errors.** `Errors.Error` has five shapes, each matched the way `errors.Is` matches its Go
  counterpart:
  - an `errors.New` sentinel;
  - plain text;
  - a `%w` wrap;
  - a `"%w: %v"` annotation, where only the first operand is matchable;
  - an `errors.Join`.

  Every package declares its own sentinels, so kv's `ErrHostCall` and the sdk's `ErrHostCall` are
  different kinds.
- **URLs** are given with what `url.Parse` makes of them (`ParseErr(cause) | Parsed(URL(host, text))`).
- **Readers** are given pre-read (`NoReader | ReadOk(bytes) | ReadErr(cause)`).
- **Sorting.** The model replaces the KV double's `sort.Strings` with an insertion sort, proved
  sorted and a permutation. `StringOrder.SortedUnique` proves that two sorted permutations of
  one list are equal, so any correct sort, Go's included, returns the same listing. Go compares strings
  byte by byte. For valid UTF-8 that orders them the same way as comparing code points, and that
  is the order `StringOrder.LessEq` uses. Keys holding invalid UTF-8 cannot be written as a
  Dafny `string` and are not part of this model.

Where the documentation and the code disagree, the model follows the code:

- The KV client accepts a reply with no status as success.
- The kv `Delete` interface comment says deleting a missing key is not an error, but the KV
  double returns `ErrKeyNotFound` for it.
- The hostmock package documentation says empty expectations are wildcards, but the code compares
  them exactly.
- The legacy client never attaches its `ErrHostCall`, `ErrUnmarshalResponse` or `ErrReadBody`
  sentinels.
- The legacy Get does not return `ErrInvalidURL` for a bad URL.
- The KV double's `ReturnValue` comment says the value is also used for Set, but Set never reads
  it (kv/mock/mock.go:81, 192-210). Set's result depends only on the override's error and its
  StoreOnSet flag.

## Model

| member | source | states |
|---|---|---|
| Errors.JoinedWithSentinel | httpclient/http.go:70 | errors.Join(sentinel, cause) is matched by exactly the sentinel and every kind the cause matches |
| Errors.AnnotatedHidesNote | kv/kv.go:147 | fmt.Errorf("%w: %v", sentinel, note) is matched by the sentinel only, whatever the note matches |
| Wire.CopyMap | httpclient/http.go:110-112 | the entry-by-entry copy loop yields a map equal to its source, whatever the visiting order |
| HttpTypes.BodyOf | httpclient/http.go:114-116 | the response body is set iff the payload body is non-empty, and then holds exactly those bytes |
| HttpClient.IsValidMethod | httpclient/http.go:363-378 | a method is accepted iff it is one of the nine: GET, HEAD, POST, PUT, PATCH, DELETE, CONNECT, OPTIONS, TRACE |
| HttpClient.MethodsAreCaseSensitive | httpclient/http.go:363-378 | method matching is exact: any method spelled with a lower-case letter is refused |
| HttpClient.Decimal | httpclient/http.go:88-97 | the %d text of the status code: a minus sign exactly for a negative code, then decimal digits with no leading zero whose value is the code's magnitude |
| HttpClient.ContentTypeHeader | httpclient/http.go:227-230 | Post/Put send a Content-Type header iff contentType is non-empty, holding exactly [contentType], and no other header |
| HttpClient.HostStatusDetail | httpclient/http.go:88-91 | the detail starts with "host status N"; it is exactly that when the message is empty, and otherwise continues with ": " and ends with the message |
| HttpClient.SuccessResponse | httpclient/http.go:101-118 | on success StatusCode is the payload's code field, Status its standard reason text, the headers are the payload's, and Body is set iff the payload body is non-empty, in which case it holds exactly the payload's bytes |
| HttpClient.CallResult | httpclient/http.go:63-118 | a transport error gives exactly errors.Join(ErrHostCall, cause) and a decode failure exactly errors.Join(ErrUnmarshalResponse, cause); a missing status gives exactly ErrHostResponseInvalid. 200/206 succeed and are the only nil errors; 400/404/500 give errors.Join(ErrHostError, detail), the only codes that match ErrHostError; every other code gives errors.Join(ErrHostResponseInvalid, "unexpected host status code N"). Every failure comes with an empty Response, and a success is SuccessResponse of the payload |
| HttpClient.CallResultKinds | httpclient/http.go:68-99 | no failure is conflated with another: a transport error is matched by ErrHostCall and exactly its cause's kinds, a decode failure by ErrUnmarshalResponse and exactly its cause's kinds; a missing status or an unknown code by ErrHostResponseInvalid alone, and 400/404/500 by ErrHostError alone |
| HttpClient.MessageNeverClassifies | httpclient/http.go:84-99 | the host's status message never changes the response, whether an error is returned, or which kinds the error matches |
| HttpClient.PartialIsSuccess | httpclient/http.go:86-87 | status 206 returns the same success response as 200, with a nil error |
| HttpClient.NewRequest | httpclient/http.go:336-361 | an invalid method gives ErrInvalidMethod even with a bad URL; otherwise a URL without a host gives ErrInvalidURL. Success holds iff both pass, and the request has the method, the parsed URL, an empty header and the given body |
| HttpClient.NewRequestPassesDo | httpclient/http.go:292-300 | every request NewRequest returns passes Do's nil-request and URL checks |
| HttpClient.HTTPClient.New | httpclient/http.go:174-189 | an empty SDKConfig.Namespace becomes the default namespace, other settings are kept, and a nil HostCall falls back to waPC's |
| HttpClient.HTTPClient.DoHTTPCall | httpclient/http.go:63-118 | one host call addressed (namespace, "httpclient", "call") carrying the request, answered as CallResult |
| HttpClient.HTTPClient.Get | httpclient/http.go:192-207 | an unparsable URL or one without a host gives ErrInvalidURL with no host call; otherwise GET with the raw URL, the Insecure flag and no headers is sent and answered as CallResult |
| HttpClient.HTTPClient.Delete | httpclient/http.go:274-289 | as Get, with method DELETE |
| HttpClient.HTTPClient.Send | httpclient/http.go:210-239 | the URL is checked before the body is read; a read failure gives ErrReadBody joined with the cause and no host call; otherwise the body bytes and ContentTypeHeader are sent |
| HttpClient.HTTPClient.Post | httpclient/http.go:210-239 | a bad URL gives ErrInvalidURL even when the reader would fail; a read failure gives exactly errors.Join(ErrReadBody, cause), so both ErrReadBody and every kind of the reader's error match, and makes no host call; otherwise POST with the body and ContentTypeHeader, answered as CallResult |
| HttpClient.HTTPClient.Put | httpclient/http.go:242-271 | as Post, with method PUT |
| HttpClient.HTTPClient.Do | httpclient/http.go:292-330 | a nil request gives ErrNilRequest; then a nil URL or empty host gives ErrInvalidURL; then a read failure gives ErrReadBody joined with the cause, all before any host call; otherwise the request's method, URL text, headers (copied key for key) and body are sent |
| LegacyHttp.ResolveNamespace | http/http.go:177-184 | the namespace is Namespace, else SDKConfig.Namespace, else "default", and is never empty |
| LegacyHttp.CallResult | http/http.go:211-236 | a transport or decode error gives an empty Response and an error matching exactly the cause's kinds. Otherwise, for any status code, the error is nil and Status/StatusCode are copied from the host status, with all headers and Body set iff non-empty |
| LegacyHttp.SentinelsNeverAttached | http/http.go:161-173 | for every cause, a failed host call or an undecodable reply is an error that matches the package's ErrHostCall or ErrUnmarshalResponse only when the cause itself does |
| LegacyHttp.NoStatusDispatch | http/http.go:222-226 | for every host status code other than 200 and 206 and every message, the legacy client returns a response with that StatusCode and Status and a nil error, where the current client returns an error |
| LegacyHttp.NewRequest | http/http.go:485-502 | only a URL parse failure is refused, wrapping the parse error; any method is accepted, the header starts empty and the body is kept |
| LegacyHttp.NewRequestLaxerThanCurrent | http/http.go:485-502 | every request the current NewRequest builds, the legacy one builds identically; every parsed URL with an empty host, and every method outside the allowed set, passes the legacy NewRequest but not the current one |
| LegacyHttp.LegacyClient.New | http/http.go:176-196 | namespace precedence as ResolveNamespace, and a nil HostCall falls back to waPC's |
| LegacyHttp.LegacyClient.Call | http/http.go:211-238 | one host call to (namespace, "httpclient", "call") with the request, answered as CallResult |
| LegacyHttp.LegacyClient.Get | http/http.go:198-239 | no URL validation: GET with the raw URL string, the Insecure flag and an empty header map is always sent |
| LegacyHttp.LegacyClient.Delete | http/http.go:365-410 | as Get, with method DELETE |
| LegacyHttp.LegacyClient.Send | http/http.go:241-301 | a body read failure returns the wrapped cause before any host call; otherwise Content-Type is always sent, even when empty |
| LegacyHttp.LegacyClient.Post | http/http.go:241-301 | a read failure's error matches exactly the cause's kinds and no call is made; otherwise POST with the body and the Content-Type header |
| LegacyHttp.LegacyClient.Put | http/http.go:303-363 | as Post, with method PUT |
| LegacyHttp.LegacyClient.Do | http/http.go:412-479 | the body is read first, so a read failure wins over a nil URL; a nil URL gives ErrInvalidURL only after a successful read; otherwise the method, URL text, copied headers and body are sent |
| Kv.New | kv/kv.go:115-128 | the namespace is Namespace, else SDKConfig.Namespace, else "default"; a nil HostCall falls back to waPC's |
| Kv.ReplyError | kv/kv.go:145-152 | a transport error is matchable only as ErrHostCall, whatever the host's error; a decode failure only as ErrHostResponseInvalid; both take precedence over the payload |
| Kv.Close | kv/kv.go:131-133 | Close always returns nil |
| Kv.Get | kv/kv.go:136-160 | an empty key gives ErrInvalidKey with no host call. The call is addressed (namespace, "kvstore", "get"). The error is nil iff the reply decoded with an absent or zero status, and then the data is returned unchanged. ErrKeyNotFound holds iff the status is 404, ErrHostCall iff a transport error, and ErrHostResponseInvalid iff a decode failure or any other non-zero code, 200 included. A failing status gives exactly the bare sentinel. A transport error is matched by ErrHostCall alone and a decode failure by ErrHostResponseInvalid alone: both are formatted with %v, so none of the host's own kinds stay matchable |
| Kv.Set | kv/kv.go:164-188 | the key is checked before the value: an empty key gives ErrInvalidKey; a nil value gives ErrInvalidValue; an empty non-nil value is sent. Any non-zero code is exactly ErrHostResponseInvalid and never ErrKeyNotFound. A transport error is matched by ErrHostCall alone and a decode failure by ErrHostResponseInvalid alone: both are formatted with %v, so none of the host's own kinds stay matchable |
| Kv.Delete | kv/kv.go:191-212 | an empty key gives ErrInvalidKey with no host call; there is no not-found case, and any non-zero code is exactly ErrHostResponseInvalid. A transport error is matched by ErrHostCall alone and a decode failure by ErrHostResponseInvalid alone: both are formatted with %v, so none of the host's own kinds stay matchable |
| Kv.Keys | kv/kv.go:215-233 | always calls (namespace, "kvstore", "keys") with ReturnProto set; on success returns the host's key list unchanged, in host order; any non-zero code is exactly ErrHostResponseInvalid. A transport error is matched by ErrHostCall alone and a decode failure by ErrHostResponseInvalid alone: both are formatted with %v, so none of the host's own kinds stay matchable |
| Kv.StatusConventionsDiffer | kv/kv.go:153-159 | for every code and message, KV Get succeeds iff the code is 0 (404 is ErrKeyNotFound, any other code ErrHostResponseInvalid), while the HTTP client succeeds iff the code is 200 or 206 |
| StringOrder.LessEqReflexive | kv/mock/mock.go:239 | the string order is reflexive |
| StringOrder.LessEqTotal | kv/mock/mock.go:239 | any two strings are comparable |
| StringOrder.LessEqTransitive | kv/mock/mock.go:239 | the string order is transitive |
| StringOrder.LessEqAntisymmetric | kv/mock/mock.go:239 | strings each at most the other are equal |
| StringOrder.Insert | kv/mock/mock.go:239 | insertion adds exactly the one element |
| StringOrder.InsertSorted | kv/mock/mock.go:239 | inserting into an ascending sequence keeps it ascending |
| StringOrder.SortStrings | kv/mock/mock.go:239 | the result is ascending and a permutation of the input |
| StringOrder.SortedUnique | kv/mock/mock.go:239 | two ascending sequences that are permutations of each other are equal |
| KvMock.GetOrCreate | kv/mock/mock.go:160-165 | the configured response for the key, or the empty Response when none is configured |
| KvMock.StoreOnSet | kv/mock/mock.go:168-173 | a SET override writes through iff StoreOnSet(false) was not called (the default is true) |
| KvMock.Apply | kv/mock/mock.go:81-111 | each builder method replaces only its own field and keeps the others |
| KvMock.Configure | kv/mock/mock.go:81-111 | a builder call adds or changes only the entry OP + " " + key; every other entry is unchanged, and the entry keeps earlier settings |
| KvMock.GetResult | kv/mock/mock.go:176-189 | an empty key gives ErrInvalidKey; a GET override wins over the store; otherwise the stored value with a nil error iff the key is present, else ErrKeyNotFound |
| KvMock.SetResult | kv/mock/mock.go:192-211 | the key is checked, then the nil value. An override's error is returned and the store is unchanged. An override without error writes iff StoreOnSet. No override writes store[key] = value. Keys other than key are never changed |
| KvMock.DeleteResult | kv/mock/mock.go:214-227 | an empty key gives ErrInvalidKey; an override returns its error, even nil, and leaves the store alone; a missing key gives ErrKeyNotFound; otherwise exactly that key is removed |
| KvMock.ListingIsUnique | kv/mock/mock.go:235-240 | the sorted key listing is determined by the store alone, whatever order the map is iterated in |
| KvMock.SetThenGet | kv/mock/mock.go:192-211 | with no overrides, Set(k, v) succeeds and a following Get(k) returns v with a nil error |
| KvMock.SetWithoutStoreLeavesKeyMissing | kv/mock/mock.go:204-207 | for every responses map whose SET override has StoreOnSet(false) and no error, Set succeeds and leaves the store unchanged, so a missing key stays missing for a Get without its own override |
| KvMock.DeleteThenGet | kv/mock/mock.go:214-227 | with no overrides, a successful Delete makes Get and a second Delete report ErrKeyNotFound |
| KvMock.ChainedOverride | kv/mock/mock.go:81-103 | OnGet(k).ReturnValue(v).ReturnError(e) makes Get(k) return (v, e) whatever the store holds, in either order of the two settings |
| KvMock.Client.New | kv/mock/mock.go:129-139 | the store is a copy of the seed; no overrides and no calls |
| KvMock.Client.OnGet | kv/mock/mock.go:142-144 | a builder for this client and the entry "GET " + key |
| KvMock.Client.OnSet | kv/mock/mock.go:147-149 | a builder for this client and the entry "SET " + key |
| KvMock.Client.OnDelete | kv/mock/mock.go:152-154 | a builder for this client and the entry "DELETE " + key |
| KvMock.Client.OnKeys | kv/mock/mock.go:157 | a builder for this client and the entry "KEYS" |
| KvMock.Client.Get | kv/mock/mock.go:176-189 | appends exactly one Call before any validation, changes nothing else, and answers as GetResult |
| KvMock.Client.Set | kv/mock/mock.go:192-211 | appends one Call holding a copy of the value, then updates the store and returns the error as SetResult |
| KvMock.Client.Delete | kv/mock/mock.go:214-227 | appends one Call, then updates the store and returns the error as DeleteResult |
| KvMock.Client.Keys | kv/mock/mock.go:230-241 | appends one Call. A KEYS override returns its keys and error. Otherwise the error is nil and the result is the store's keys, ascending, each exactly once |
| KvMock.Client.Close | kv/mock/mock.go:244 | Close always returns nil |
| KvMock.ResponseBuilder.ReturnValue | kv/mock/mock.go:82-87 | updates only the Value of its entry, returns the builder, and changes neither the store nor the calls |
| KvMock.ResponseBuilder.ReturnKeys | kv/mock/mock.go:90-95 | updates only the Keys of its entry and returns the builder |
| KvMock.ResponseBuilder.ReturnError | kv/mock/mock.go:98-103 | updates only the Err of its entry and returns the client |
| KvMock.ResponseBuilder.StoreOnSet | kv/mock/mock.go:106-111 | updates only the storeOnSet flag of its entry and returns the builder |
| HttpMock.InitialDefault | http/mock/mock.go:108-123 | a nil default becomes 200 / "OK" / {"status":"success"} with an empty header; a given default is kept, with a nil header replaced by an empty one; the header is never nil afterwards |
| HttpMock.Registered | http/mock/mock.go:370-378 | Return stores the response unchanged except that a nil header becomes empty |
| HttpMock.Lookup | http/mock/mock.go:148-152 | the response registered under the exact key, else the default |
| HttpMock.NonEmptyEntries | http/mock/mock.go:166-173 | adding every value gives a header with exactly the names that have values, each keeping its values in order |
| HttpMock.NonEmptyEntriesKeepsFullHeader | http/mock/mock.go:166-173 | a header with no empty value list is reproduced exactly |
| HttpMock.Answer | http/mock/mock.go:154-175 | a response with an Error gives (nil, Error). Otherwise the result has its StatusCode, Status, Body and header values, with a nil error |
| HttpMock.LaterRegistrationWins | http/mock/mock.go:376 | registering twice under one key keeps the later response |
| HttpMock.RegistrationIsPerKey | http/mock/mock.go:376 | registering under one key does not change the answer for any other key |
| HttpMock.AddAll | http/mock/mock.go:166-173 | the nested Header.Add loops produce NonEmptyEntries of the configured header |
| HttpMock.Respond | http/mock/mock.go:154-175 | the response built for the chosen entry is Answer of it |
| HttpMock.MockClient.New | http/mock/mock.go:108-130 | no registrations, no calls, and the default response from InitialDefault |
| HttpMock.MockClient.On | http/mock/mock.go:133-139 | a builder for the key method + " " + url; the table is not changed |
| HttpMock.MockClient.Get | http/mock/mock.go:142-176 | appends Call{GET, url} before the lookup, so failures are recorded; answers with the registered or default response |
| HttpMock.MockClient.Delete | http/mock/mock.go:279-313 | appends Call{DELETE, url} before the lookup and answers as Get does |
| HttpMock.MockClient.Send | http/mock/mock.go:179-226 | a body read failure returns the wrapped cause and records nothing; otherwise one Call with the method, URL, body and Content-Type |
| HttpMock.MockClient.Post | http/mock/mock.go:179-226 | as Send with POST; a read failure's error matches exactly the cause's kinds |
| HttpMock.MockClient.Put | http/mock/mock.go:229-276 | as Send with PUT |
| HttpMock.MockClient.Do | http/mock/mock.go:316-361 | reads the body first, and a failure records nothing; otherwise one Call with req.Method, the URL text, the body and req.Header, answered under the key method + " " + URL |
| HttpMock.ResponseBuilder.Return | http/mock/mock.go:370-378 | stores Registered(response) under the key, replacing any earlier one, and returns the client |
| HttpMock.ResponseBuilder.ReturnError | http/mock/mock.go:381-386 | stores a response holding only the error under the key and returns the client |
| HostMock.New | hostmock/hostmock.go:33-43 | every field is copied unchanged and no error is returned |
| HostMock.Mismatch | hostmock/hostmock.go:57-67 | the first failing routing check in the order namespace, capability, function, by exact equality; None iff all three match |
| HostMock.MismatchError | hostmock/hostmock.go:58 | the routing error matches exactly its sentinel |
| HostMock.HostCall | hostmock/hostmock.go:45-83 | Fail returns Error, or "Failed" when none is set, before any check. A misrouted call's error matches exactly the first mismatch's sentinel. The validator's error is returned after routing passes. The error is nil iff everything passes, and then the Response bytes are returned. Bytes never come with an error |
| HostMock.EmptyExpectationIsNoWildcard | hostmock/hostmock.go:57-59 | an empty ExpectedNamespace refuses any non-empty namespace with ErrUnexpectedNamespace |
| HostMock.ValidatorAfterRouting | hostmock/hostmock.go:57-74 | a misrouted call's result depends on neither the validator nor the response |
| HostMock.FailureBeforeRouting | hostmock/hostmock.go:47-54 | with Fail set, the result depends on neither the address nor the payload |
| Wiring.MisroutedCallThroughClients | kv/kv.go:145-148 | a host routing error is identifiable through the current HTTP client (with ErrHostCall) and through the legacy client (without its ErrHostCall), but not through the KV client, which exposes only its own ErrHostCall |

## Left out

- Protobuf marshalling and unmarshalling are generated code. Encoding is taken to succeed, so the
  "failed to marshal" branches are not modelled, and decoding is the abstract `DecodeFail | Decoded`.
- `url.Parse`, `io.ReadAll`, `io.NopCloser` and `Body.Close` are library code. URLs come with their
  parse result, and readers come pre-read. `http.StatusText` is written out as Go's reason-phrase
  table, which keeps some older names (413 is "Request Entity Too Large").
- `wapc.HostCall` is the real host boundary and is not part of this model. Its reply is an input
  to every operation, and the configured HostCall function is kept only as an opaque value.
- Go's distinction between nil and empty slices and maps is collapsed, except where the code tests
  it: the KV client's Set value and the http double's headers.
- The `New` functions of kv, httpclient, the legacy http client and hostmock return an error
  that is always nil. Only `HostMock.New` models it. The `New` functions of the two doubles
  (kv/mock and http/mock) have no error result.
- Wire.DefaultNamespace is "default". The constant `sdk.DefaultNamespace` that httpclient/http.go
  uses is not defined in the sources. "default" is the literal the legacy and KV clients use
  (http/http.go:182, kv/kv.go:120) and the value the documentation comment at sdk.go:95 gives.
- LegacyHttp.CallResult requires the decoded reply to carry a status, because the legacy client
  dereferences it without a nil check and would panic.
- HttpMock.MockClient.Do requires a URL when the body reads, because the double dereferences it
  and would panic. A nil request is outside every Do that dereferences it.
- HttpMock.AddAll does not canonicalise header names as `Header.Add` does. Names are kept as
  given, so two spellings of one name are not merged.
- HttpMock.ResponseBuilder.Return stores a value. Go stores a pointer to the caller's Response,
  so later changes by the caller would show through; that aliasing is not captured.
- KvMock.ResponseBuilder.ReturnValue stores the bytes by value. Go keeps the caller's slice
  (kv/mock/mock.go:84), and an overridden Get returns it without a copy (kv/mock/mock.go:182),
  so a caller that changes the slice afterwards changes what Get returns. Stored values are
  copied on Set and on a store read (kv/mock/mock.go:187, 205, 209). That aliasing is not
  captured.
- HttpMock.MockClient.New keeps a given default by value. Go writes the empty header into the
  caller's own `DefaultResponse` (http/mock/mock.go:121-123), so the caller sees that change.
  That write through the caller's pointer is not captured.
- HttpMock.MockClient.Do records a copy of the request header. Go records `req.Header` by
  reference (http/mock/mock.go:326-331), so later changes to the request show in the recorded
  call. That aliasing is not captured.
- HostMock.HostCall takes the `Response` callback as the bytes it returns, and the validator as a
  pure function.
- The sql, metrics, function, log and logging packages are stubs that return constants and are
  not part of this model. The same goes for the richer behaviour their tests expect.
- The `errors.go` sentinels appear only as the `Errors.Kind` constructors the clients use.
