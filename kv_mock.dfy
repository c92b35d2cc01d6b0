/** The in-memory KV double (package kv/mock): a map-backed store, a table of per-operation
    overrides keyed by OP + " " + key, and an append-only log of calls. */
module KvMock {
  import opened Errors
  import opened Wire
  import opened StringOrder

  /** Operation names, as used in the override keys and the call log. */
  const OpGet: string := "GET"
  const OpSet: string := "SET"
  const OpDelete: string := "DELETE"
  const OpKeys: string := "KEYS"

  /** A configured outcome. storeOnSet is the optional *bool: None means "not set". */
  datatype MockResponse = MockResponse(value: Bytes, keys: seq<string>, err: Option<Error>, storeOnSet: Option<bool>)

  /** Response{}: what getOrCreate starts from for an unconfigured key. */
  const Unconfigured: MockResponse := MockResponse([], [], None, None)

  /** One recorded operation. A nil Value is recorded as no bytes. */
  datatype Call = Call(op: string, key: string, value: Bytes)

  type Store = map<string, Bytes>
  type Responses = map<string, MockResponse>

  /** The composite key of a per-key override. */
  function OverrideKey(op: string, key: string): string {
    op + " " + key
  }

  /** getOrCreate: the configured response for k, or the empty one. */
  function GetOrCreate(responses: Responses, k: string): (r: MockResponse)
    ensures k in responses ==> r == responses[k]
    ensures k !in responses ==> r == Unconfigured
  {
    if k in responses then responses[k] else Unconfigured
  }

  /** ensureStoreOnSet: a SET override writes through unless StoreOnSet(false) was called. */
  function StoreOnSet(r: MockResponse): (b: bool)
    ensures b <==> r.storeOnSet != Some(false)
  {
    if r.storeOnSet.None? then true else r.storeOnSet.value
  }

  /** The four things a ResponseBuilder can configure, one field each. */
  datatype Setting =
    | SetValue(v: Bytes)
    | SetKeys(ks: seq<string>)
    | SetError(e: Option<Error>)
    | SetStoreOnSet(b: bool)

  /** A builder method's change to one response: only its own field is replaced. */
  function Apply(r: MockResponse, s: Setting): (r': MockResponse)
    ensures s.SetValue? ==> r' == MockResponse(s.v, r.keys, r.err, r.storeOnSet)
    ensures s.SetKeys? ==> r' == MockResponse(r.value, s.ks, r.err, r.storeOnSet)
    ensures s.SetError? ==> r' == MockResponse(r.value, r.keys, s.e, r.storeOnSet)
    ensures s.SetStoreOnSet? ==> r' == MockResponse(r.value, r.keys, r.err, Some(s.b))
  {
    match s
    case SetValue(v) => r.(value := v)
    case SetKeys(ks) => r.(keys := ks)
    case SetError(e) => r.(err := e)
    case SetStoreOnSet(b) => r.(storeOnSet := Some(b))
  }

  /** The table after a builder method on key k: only entry k changes, and it keeps every field
      an earlier call set except the one configured now. */
  function Configure(responses: Responses, k: string, s: Setting): (rs: Responses)
    ensures rs.Keys == responses.Keys + {k}
    ensures forall k' :: k' in responses && k' != k ==> rs[k'] == responses[k']
    ensures rs[k] == Apply(GetOrCreate(responses, k), s)
  {
    responses[k := Apply(GetOrCreate(responses, k), s)]
  }

  /** Get: an empty key is refused; a GET override wins over the store; otherwise the stored
      value or ErrKeyNotFound. */
  function GetResult(store: Store, responses: Responses, key: string): (r: (Bytes, Option<Error>))
    ensures key == "" ==> r == ([], Some(Sentinel(KvInvalidKey)))
    ensures key != "" && OverrideKey(OpGet, key) in responses ==>
      r == (responses[OverrideKey(OpGet, key)].value, responses[OverrideKey(OpGet, key)].err)
    ensures key != "" && OverrideKey(OpGet, key) !in responses ==>
      (r.1.None? <==> key in store)
      && (key in store ==> r.0 == store[key])
      && (key !in store ==> r == ([], Some(Sentinel(KvKeyNotFound))))
  {
    if key == "" then ([], Some(Sentinel(KvInvalidKey)))
    else if OverrideKey(OpGet, key) in responses then
      var o := responses[OverrideKey(OpGet, key)];
      (o.value, o.err)
    else if key !in store then ([], Some(Sentinel(KvKeyNotFound)))
    else (store[key], None)
  }

  /** Set: the key, then the nil value, is refused; an override's error is returned without a
      write; an override without error writes only if StoreOnSet; no override always writes.
      The result is the new store and the error. */
  function SetResult(store: Store, responses: Responses, key: string, value: Option<Bytes>): (r: (Store, Option<Error>))
    ensures key == "" ==> r.1 == Some(Sentinel(KvInvalidKey))
    ensures key != "" && value.None? ==> r.1 == Some(Sentinel(KvInvalidValue))
    ensures r.1.None? <==>
      key != "" && value.Some? && GetOrCreate(responses, OverrideKey(OpSet, key)).err.None?
    ensures key != "" && value.Some? && OverrideKey(OpSet, key) in responses ==>
      r.1 == responses[OverrideKey(OpSet, key)].err
    ensures r.1.Some? ==> r.0 == store
    ensures r.1.None? ==>
      if StoreOnSet(GetOrCreate(responses, OverrideKey(OpSet, key)))
      then r.0 == store[key := value.value]
      else r.0 == store
    ensures forall k :: k != key ==> (k in r.0 <==> k in store) && (k in store ==> r.0[k] == store[k])
  {
    if key == "" then (store, Some(Sentinel(KvInvalidKey)))
    else if value.None? then (store, Some(Sentinel(KvInvalidValue)))
    else if OverrideKey(OpSet, key) in responses then
      var o := responses[OverrideKey(OpSet, key)];
      if o.err.Some? then (store, o.err)
      else if StoreOnSet(o) then (store[key := value.value], None)
      else (store, None)
    else (store[key := value.value], None)
  }

  /** Delete: an empty key is refused; a DELETE override returns its error (nil included) and
      leaves the store alone; a missing key is ErrKeyNotFound; otherwise exactly that key goes. */
  function DeleteResult(store: Store, responses: Responses, key: string): (r: (Store, Option<Error>))
    ensures key == "" ==> r == (store, Some(Sentinel(KvInvalidKey)))
    ensures key != "" && OverrideKey(OpDelete, key) in responses ==>
      r == (store, responses[OverrideKey(OpDelete, key)].err)
    ensures key != "" && OverrideKey(OpDelete, key) !in responses ==>
      (key !in store ==> r == (store, Some(Sentinel(KvKeyNotFound))))
      && (key in store ==> r.1.None? && r.0.Keys == store.Keys - {key})
    ensures forall k :: k != key ==> (k in r.0 <==> k in store) && (k in store ==> r.0[k] == store[k])
  {
    if key == "" then (store, Some(Sentinel(KvInvalidKey)))
    else if OverrideKey(OpDelete, key) in responses then (store, responses[OverrideKey(OpDelete, key)].err)
    else if key !in store then (store, Some(Sentinel(KvKeyNotFound)))
    else (store - {key}, None)
  }

  /** What Keys returns without an override: the store's keys, ascending, each once. */
  predicate ListsKeys(store: Store, keys: seq<string>) {
    Sorted(keys) && multiset(keys) == multiset(store.Keys)
  }

  /** The listing is unique, whatever order the map was iterated in. */
  lemma ListingIsUnique(store: Store, k1: seq<string>, k2: seq<string>)
    requires ListsKeys(store, k1) && ListsKeys(store, k2)
    ensures k1 == k2
  {
    SortedUnique(k1, k2);
  }

  /** With no overrides, a Set that succeeds is seen by the next Get. */
  lemma SetThenGet(store: Store, responses: Responses, key: string, v: Bytes)
    requires key != ""
    requires OverrideKey(OpSet, key) !in responses && OverrideKey(OpGet, key) !in responses
    ensures SetResult(store, responses, key, Some(v)).1.None?
    ensures GetResult(SetResult(store, responses, key, Some(v)).0, responses, key) == (v, None)
  {
  }

  /** A SET override with StoreOnSet(false) and no error succeeds but writes nothing: the store
      is unchanged, so a key that was absent stays absent for a Get without its own override. */
  lemma SetWithoutStoreLeavesKeyMissing(store: Store, responses: Responses, key: string, v: Bytes)
    requires key != ""
    requires OverrideKey(OpSet, key) in responses
    requires responses[OverrideKey(OpSet, key)].storeOnSet == Some(false)
    requires responses[OverrideKey(OpSet, key)].err.None?
    ensures SetResult(store, responses, key, Some(v)) == (store, None)
    ensures key !in store && OverrideKey(OpGet, key) !in responses ==>
      GetResult(SetResult(store, responses, key, Some(v)).0, responses, key).1 == Some(Sentinel(KvKeyNotFound))
  {
  }

  /** With no overrides, a successful Delete makes the next Get report ErrKeyNotFound, and a
      second Delete does too. */
  lemma DeleteThenGet(store: Store, responses: Responses, key: string)
    requires key != "" && key in store
    requires OverrideKey(OpDelete, key) !in responses && OverrideKey(OpGet, key) !in responses
    ensures DeleteResult(store, responses, key).1.None?
    ensures GetResult(DeleteResult(store, responses, key).0, responses, key).1 == Some(Sentinel(KvKeyNotFound))
    ensures DeleteResult(DeleteResult(store, responses, key).0, responses, key).1 == Some(Sentinel(KvKeyNotFound))
  {
  }

  /** OnGet(k).ReturnValue(v).ReturnError(e): the next Get(k) returns v and e, whatever the store
      holds, and the two settings could have been made in either order. */
  lemma ChainedOverride(store: Store, responses: Responses, key: string, v: Bytes, e: Option<Error>)
    requires key != ""
    ensures var rs := Configure(Configure(responses, OverrideKey(OpGet, key), SetValue(v)), OverrideKey(OpGet, key), SetError(e));
      GetResult(store, rs, key) == (v, e)
      && rs == Configure(Configure(responses, OverrideKey(OpGet, key), SetError(e)), OverrideKey(OpGet, key), SetValue(v))
  {
  }

  /** The mock client. */
  class Client {
    var store: Store
    var responses: Responses
    var calls: seq<Call>

    /** New: a copy of the seed, no overrides, no calls. */
    constructor New(seed: Store)
      ensures store == seed && responses == map[] && calls == []
    {
      var st := CopyMap(seed);
      store := st;
      responses := map[];
      calls := [];
    }

    /** OnGet, OnSet, OnDelete, OnKeys: a builder for the entry OP + " " + key; the table is
        not touched until a builder method runs. */
    method OnGet(key: string) returns (b: ResponseBuilder)
      ensures fresh(b) && b.m == this && b.key == OverrideKey(OpGet, key)
    {
      b := new ResponseBuilder(this, OverrideKey(OpGet, key));
    }

    method OnSet(key: string) returns (b: ResponseBuilder)
      ensures fresh(b) && b.m == this && b.key == OverrideKey(OpSet, key)
    {
      b := new ResponseBuilder(this, OverrideKey(OpSet, key));
    }

    method OnDelete(key: string) returns (b: ResponseBuilder)
      ensures fresh(b) && b.m == this && b.key == OverrideKey(OpDelete, key)
    {
      b := new ResponseBuilder(this, OverrideKey(OpDelete, key));
    }

    /** The KEYS entry has no key part. */
    method OnKeys() returns (b: ResponseBuilder)
      ensures fresh(b) && b.m == this && b.key == OpKeys
    {
      b := new ResponseBuilder(this, OpKeys);
    }

    /** Get records the call first, then answers as GetResult; the store is unchanged. */
    method Get(key: string) returns (value: Bytes, err: Option<Error>)
      modifies this
      ensures calls == old(calls) + [Call(OpGet, key, [])]
      ensures store == old(store) && responses == old(responses)
      ensures (value, err) == GetResult(store, responses, key)
    {
      calls := calls + [Call(OpGet, key, [])];
      if key == "" {
        return [], Some(Sentinel(KvInvalidKey));
      }
      if OverrideKey(OpGet, key) in responses {
        var r := responses[OverrideKey(OpGet, key)];
        return r.value, r.err;
      }
      if key !in store {
        return [], Some(Sentinel(KvKeyNotFound));
      }
      value := store[key];
      err := None;
    }

    /** Set records the call (with a copy of the value) first, then updates the store as SetResult. */
    method Set(key: string, value: Option<Bytes>) returns (err: Option<Error>)
      modifies this
      ensures calls == old(calls) + [Call(OpSet, key, if value.Some? then value.value else [])]
      ensures responses == old(responses)
      ensures (store, err) == SetResult(old(store), responses, key, value)
    {
      calls := calls + [Call(OpSet, key, if value.Some? then value.value else [])];
      if key == "" {
        return Some(Sentinel(KvInvalidKey));
      }
      if value.None? {
        return Some(Sentinel(KvInvalidValue));
      }
      if OverrideKey(OpSet, key) in responses {
        var r := responses[OverrideKey(OpSet, key)];
        if r.err.Some? {
          return r.err;
        }
        if StoreOnSet(r) {
          store := store[key := value.value];
        }
        return None;
      }
      store := store[key := value.value];
      err := None;
    }

    /** Delete records the call first, then updates the store as DeleteResult. */
    method Delete(key: string) returns (err: Option<Error>)
      modifies this
      ensures calls == old(calls) + [Call(OpDelete, key, [])]
      ensures responses == old(responses)
      ensures (store, err) == DeleteResult(old(store), responses, key)
    {
      calls := calls + [Call(OpDelete, key, [])];
      if key == "" {
        return Some(Sentinel(KvInvalidKey));
      }
      if OverrideKey(OpDelete, key) in responses {
        return responses[OverrideKey(OpDelete, key)].err;
      }
      if key !in store {
        return Some(Sentinel(KvKeyNotFound));
      }
      store := store - {key};
      err := None;
    }

    /** Keys records the call first; a KEYS override returns a copy of its keys and its error,
        otherwise the store's keys are collected and sorted. */
    method Keys() returns (keys: seq<string>, err: Option<Error>)
      modifies this
      ensures calls == old(calls) + [Call(OpKeys, "", [])]
      ensures store == old(store) && responses == old(responses)
      ensures OpKeys in responses ==> keys == responses[OpKeys].keys && err == responses[OpKeys].err
      ensures OpKeys !in responses ==> err.None? && ListsKeys(store, keys)
    {
      calls := calls + [Call(OpKeys, "", [])];
      if OpKeys in responses {
        var r := responses[OpKeys];
        return r.keys, r.err;
      }
      var collected: seq<string> := [];
      var rest := store.Keys;
      while rest != {}
        invariant rest <= store.Keys
        invariant multiset(collected) == multiset(store.Keys - rest)
        decreases rest
      {
        var k :| k in rest;
        assert store.Keys - (rest - {k}) == (store.Keys - rest) + {k};
        collected := collected + [k];
        rest := rest - {k};
      }
      keys := SortStrings(collected);
      err := None;
    }

    /** Close never fails. */
    function Close(): (err: Option<Error>)
      ensures err.None?
    {
      None
    }
  }

  /** ResponseBuilder: the client it configures and the entry it writes. */
  class ResponseBuilder {
    const m: Client
    const key: string

    constructor (m: Client, key: string)
      ensures this.m == m && this.key == key
    {
      this.m := m;
      this.key := key;
    }

    /** ReturnValue, ReturnKeys, StoreOnSet: update one field of the entry and return the builder. */
    method ReturnValue(v: Bytes) returns (b: ResponseBuilder)
      modifies m
      ensures b == this
      ensures m.responses == Configure(old(m.responses), key, SetValue(v))
      ensures m.store == old(m.store) && m.calls == old(m.calls)
    {
      var r := GetOrCreate(m.responses, key);
      r := r.(value := v);
      m.responses := m.responses[key := r];
      b := this;
    }

    method ReturnKeys(ks: seq<string>) returns (b: ResponseBuilder)
      modifies m
      ensures b == this
      ensures m.responses == Configure(old(m.responses), key, SetKeys(ks))
      ensures m.store == old(m.store) && m.calls == old(m.calls)
    {
      var r := GetOrCreate(m.responses, key);
      r := r.(keys := ks);
      m.responses := m.responses[key := r];
      b := this;
    }

    /** ReturnError ends the chain: it returns the client. */
    method ReturnError(e: Option<Error>) returns (c: Client)
      modifies m
      ensures c == m
      ensures m.responses == Configure(old(m.responses), key, SetError(e))
      ensures m.store == old(m.store) && m.calls == old(m.calls)
    {
      var r := GetOrCreate(m.responses, key);
      r := r.(err := e);
      m.responses := m.responses[key := r];
      c := m;
    }

    method StoreOnSet(v: bool) returns (b: ResponseBuilder)
      modifies m
      ensures b == this
      ensures m.responses == Configure(old(m.responses), key, SetStoreOnSet(v))
      ensures m.store == old(m.store) && m.calls == old(m.calls)
    {
      var r := GetOrCreate(m.responses, key);
      r := r.(storeOnSet := Some(v));
      m.responses := m.responses[key := r];
      b := this;
    }
  }
}
