/** The HTTP double (package http/mock): responses registered under method + " " + url, a
    default response for everything else, and the list of calls in the order they were made. */
module HttpMock {
  import opened Errors
  import opened Wire
  import opened HttpTypes

  /** A configured response. header None is a nil http.Header. */
  datatype MockResponse = MockResponse(statusCode: int, status: string, body: Bytes, header: Option<Header>, error: Option<Error>)

  /** A recorded request. header None is a nil http.Header (Get and Delete record none). */
  datatype Call = Call(httpMethod: string, url: string, body: Bytes, header: Option<Header>)

  /** Config.DefaultResponse (nil-able). */
  datatype Config = Config(defaultResponse: Option<MockResponse>)

  /** The composite key of a registered response. */
  function ResponseKey(m: string, url: string): string {
    m + " " + url
  }

  /** The default response New installs: 200, "OK", a success body and an empty header. A given
      default is kept, with a nil header replaced by an empty one. */
  function InitialDefault(d: Option<MockResponse>): (r: MockResponse)
    ensures r.header.Some?
    ensures d.None? ==> r == MockResponse(200, "OK", Ascii("{\"status\":\"success\"}"), Some(map[]), None)
    ensures d.Some? ==> r.statusCode == d.value.statusCode && r.status == d.value.status
                        && r.body == d.value.body && r.error == d.value.error
    ensures d.Some? && d.value.header.Some? ==> r == d.value
    ensures d.Some? && d.value.header.None? ==> r == d.value.(header := Some(map[]))
  {
    var r := if d.None? then MockResponse(200, "OK", Ascii("{\"status\":\"success\"}"), Some(map[]), None) else d.value;
    if r.header.None? then r.(header := Some(map[])) else r
  }

  /** What Return stores: the response with a nil header made empty. */
  function Registered(response: MockResponse): (r: MockResponse)
    ensures r.header.Some?
    ensures r.header.value == (if response.header.Some? then response.header.value else map[])
    ensures r == response.(header := r.header)
  {
    if response.header.None? then response.(header := Some(map[])) else response
  }

  /** The response a request gets: the one registered under its key, else the default. */
  function Lookup(responses: map<string, MockResponse>, default: MockResponse, key: string): (r: MockResponse)
    ensures key in responses ==> r == responses[key]
    ensures key !in responses ==> r == default
  {
    if key in responses then responses[key] else default
  }

  /** The header the response receives from Header.Add of every value: a name listed with no
      values does not appear, every other name keeps its values in order. */
  function NonEmptyEntries(h: Header): (r: Header)
    ensures forall k :: k in r <==> k in h && h[k] != []
    ensures forall k :: k in r ==> r[k] == h[k]
  {
    map k | k in h && h[k] != [] :: h[k]
  }

  /** A header without empty value lists is copied unchanged. */
  lemma NonEmptyEntriesKeepsFullHeader(h: Header)
    requires forall k :: k in h ==> h[k] != []
    ensures NonEmptyEntries(h) == h
  {
  }

  /** The answer to a request given the chosen response: its error and no response, or a response
      carrying its code, status text, body and header values, and no error. */
  function Answer(r: MockResponse): (a: (Option<Response>, Option<Error>))
    ensures r.error.Some? <==> a.0.None?
    ensures r.error.Some? ==> a.1 == r.error
    ensures r.error.None? ==>
      a.1.None?
      && a.0.value.statusCode == r.statusCode && a.0.value.status == r.status
      && a.0.value.body == Some(r.body)
      && a.0.value.header == Some(if r.header.Some? then NonEmptyEntries(r.header.value) else map[])
  {
    if r.error.Some? then (None, r.error)
    else (Some(Response(r.status, r.statusCode, Some(if r.header.Some? then NonEmptyEntries(r.header.value) else map[]), Some(r.body))), None)
  }

  /** Registering twice under one key keeps only the later response. */
  lemma LaterRegistrationWins(responses: map<string, MockResponse>, default: MockResponse, key: string, r1: MockResponse, r2: MockResponse)
    ensures Lookup(responses[key := Registered(r1)][key := Registered(r2)], default, key) == Registered(r2)
  {
  }

  /** A key that was never registered gets the default, and a registration under one key does
      not affect any other. */
  lemma RegistrationIsPerKey(responses: map<string, MockResponse>, default: MockResponse, key: string, other: string, r: MockResponse)
    requires other != key
    ensures Lookup(responses[key := Registered(r)], default, other) == Lookup(responses, default, other)
  {
  }

  /** The nested loops that Header.Add every value of a response header into a fresh header. */
  method AddAll(src: Header) returns (dst: Header)
    ensures dst == NonEmptyEntries(src)
  {
    dst := map[];
    var rest := src.Keys;
    while rest != {}
      invariant rest <= src.Keys
      invariant forall k :: k in dst <==> k in src.Keys - rest && src[k] != []
      invariant forall k :: k in dst ==> dst[k] == src[k]
      decreases rest
    {
      var k :| k in rest;
      var values := src[k];
      var j := 0;
      while j < |values|
        invariant 0 <= j <= |values|
        invariant forall k' :: k' in dst <==> (k' in src.Keys - rest && src[k'] != []) || (k' == k && j > 0)
        invariant forall k' :: k' in dst && k' != k ==> dst[k'] == src[k']
        invariant j > 0 ==> dst[k] == values[..j]
      {
        var prior := if k in dst then dst[k] else [];
        assert values[..j + 1] == values[..j] + [values[j]];
        dst := dst[k := prior + [values[j]]];
        j := j + 1;
      }
      assert values[..j] == values;
      rest := rest - {k};
    }
  }

  /** The shared tail of every request: answer with the chosen response. */
  method Respond(r: MockResponse) returns (resp: Option<Response>, err: Option<Error>)
    ensures (resp, err) == Answer(r)
  {
    if r.error.Some? {
      return None, r.error;
    }
    var header: Header := map[];
    if r.header.Some? {
      header := AddAll(r.header.value);
    }
    resp := Some(Response(r.status, r.statusCode, Some(header), Some(r.body)));
    err := None;
  }

  class MockClient {
    var responses: map<string, MockResponse>
    var defaultResponse: MockResponse
    var calls: seq<Call>

    /** New: no registrations, no calls, and the default from InitialDefault. */
    constructor New(config: Config)
      ensures responses == map[] && calls == []
      ensures defaultResponse == InitialDefault(config.defaultResponse)
    {
      var d := if config.defaultResponse.None?
        then MockResponse(200, "OK", Ascii("{\"status\":\"success\"}"), Some(map[]), None)
        else config.defaultResponse.value;
      if d.header.None? {
        d := d.(header := Some(map[]));
      }
      responses := map[];
      defaultResponse := d;
      calls := [];
    }

    /** On: a builder for the key method + " " + url; nothing is registered yet. */
    method On(m: string, url: string) returns (b: ResponseBuilder)
      ensures fresh(b) && b.client == this && b.key == ResponseKey(m, url)
    {
      b := new ResponseBuilder(this, ResponseKey(m, url));
    }

    /** Get records the call before the lookup, so a failing request is recorded too. */
    method Get(url: string) returns (resp: Option<Response>, err: Option<Error>)
      modifies this
      ensures calls == old(calls) + [Call("GET", url, [], None)]
      ensures responses == old(responses) && defaultResponse == old(defaultResponse)
      ensures (resp, err) == Answer(Lookup(responses, defaultResponse, ResponseKey("GET", url)))
    {
      calls := calls + [Call("GET", url, [], None)];
      resp, err := Respond(Lookup(responses, defaultResponse, ResponseKey("GET", url)));
    }

    method Delete(url: string) returns (resp: Option<Response>, err: Option<Error>)
      modifies this
      ensures calls == old(calls) + [Call("DELETE", url, [], None)]
      ensures responses == old(responses) && defaultResponse == old(defaultResponse)
      ensures (resp, err) == Answer(Lookup(responses, defaultResponse, ResponseKey("DELETE", url)))
    {
      calls := calls + [Call("DELETE", url, [], None)];
      resp, err := Respond(Lookup(responses, defaultResponse, ResponseKey("DELETE", url)));
    }

    /** Post and Put read the body first: a read failure is returned wrapped, and no call is
        recorded. Otherwise the call carries the body and the Content-Type given. */
    method Send(verb: string, url: string, contentType: string, body: Reader)
      returns (resp: Option<Response>, err: Option<Error>)
      modifies this
      ensures responses == old(responses) && defaultResponse == old(defaultResponse)
      ensures body.ReadErr? ==>
        calls == old(calls) && resp.None? && err == Some(Wrapped("failed to read request body", body.cause))
      ensures !body.ReadErr? ==>
        calls == old(calls) + [Call(verb, url, BodyBytes(body), Some(map["Content-Type" := [contentType]]))]
        && (resp, err) == Answer(Lookup(responses, defaultResponse, ResponseKey(verb, url)))
    {
      if body.ReadErr? {
        return None, Some(Wrapped("failed to read request body", body.cause));
      }
      calls := calls + [Call(verb, url, BodyBytes(body), Some(map["Content-Type" := [contentType]]))];
      resp, err := Respond(Lookup(responses, defaultResponse, ResponseKey(verb, url)));
    }

    method Post(url: string, contentType: string, body: Reader) returns (resp: Option<Response>, err: Option<Error>)
      modifies this
      ensures responses == old(responses) && defaultResponse == old(defaultResponse)
      ensures body.ReadErr? ==>
        calls == old(calls) && resp.None? && (forall k :: Fails(err, k) <==> Is(body.cause, k))
      ensures !body.ReadErr? ==>
        calls == old(calls) + [Call("POST", url, BodyBytes(body), Some(map["Content-Type" := [contentType]]))]
        && (resp, err) == Answer(Lookup(responses, defaultResponse, ResponseKey("POST", url)))
    {
      resp, err := Send("POST", url, contentType, body);
    }

    method Put(url: string, contentType: string, body: Reader) returns (resp: Option<Response>, err: Option<Error>)
      modifies this
      ensures responses == old(responses) && defaultResponse == old(defaultResponse)
      ensures body.ReadErr? ==>
        calls == old(calls) && resp.None? && (forall k :: Fails(err, k) <==> Is(body.cause, k))
      ensures !body.ReadErr? ==>
        calls == old(calls) + [Call("PUT", url, BodyBytes(body), Some(map["Content-Type" := [contentType]]))]
        && (resp, err) == Answer(Lookup(responses, defaultResponse, ResponseKey("PUT", url)))
    {
      resp, err := Send("PUT", url, contentType, body);
    }

    /** Do reads the body first, then records the request's method, URL text, body and header.
        A request with no URL whose body reads is outside what it handles. */
    method Do(req: Request) returns (resp: Option<Response>, err: Option<Error>)
      requires req.body.ReadErr? || req.url.Some?
      modifies this
      ensures responses == old(responses) && defaultResponse == old(defaultResponse)
      ensures req.body.ReadErr? ==>
        calls == old(calls) && resp.None? && err == Some(Wrapped("failed to read request body", req.body.cause))
      ensures !req.body.ReadErr? ==>
        calls == old(calls) + [Call(req.httpMethod, req.url.value.text, BodyBytes(req.body), Some(req.header))]
        && (resp, err) == Answer(Lookup(responses, defaultResponse, ResponseKey(req.httpMethod, req.url.value.text)))
    {
      if req.body.ReadErr? {
        return None, Some(Wrapped("failed to read request body", req.body.cause));
      }
      calls := calls + [Call(req.httpMethod, req.url.value.text, BodyBytes(req.body), Some(req.header))];
      resp, err := Respond(Lookup(responses, defaultResponse, ResponseKey(req.httpMethod, req.url.value.text)));
    }
  }

  /** ResponseBuilder: the client it registers into and the key it registers under. */
  class ResponseBuilder {
    const client: MockClient
    const key: string

    constructor (client: MockClient, key: string)
      ensures this.client == client && this.key == key
    {
      this.client := client;
      this.key := key;
    }

    /** Return registers the response under the key, replacing any earlier one. */
    method Return(response: MockResponse) returns (c: MockClient)
      modifies client
      ensures c == client
      ensures client.responses == old(client.responses)[key := Registered(response)]
      ensures client.defaultResponse == old(client.defaultResponse) && client.calls == old(client.calls)
    {
      var r := response;
      if r.header.None? {
        r := r.(header := Some(map[]));
      }
      client.responses := client.responses[key := r];
      c := client;
    }

    /** ReturnError registers a response that carries only the error. */
    method ReturnError(e: Option<Error>) returns (c: MockClient)
      modifies client
      ensures c == client
      ensures client.responses == old(client.responses)[key := MockResponse(0, "", [], None, e)]
      ensures client.defaultResponse == old(client.defaultResponse) && client.calls == old(client.calls)
    {
      client.responses := client.responses[key := MockResponse(0, "", [], None, e)];
      c := client;
    }
  }
}
