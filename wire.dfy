/** The host-call boundary shared by every capability client. */
module Wire {
  import opened Errors

  newtype byte = x: int | 0 <= x < 256
  type Bytes = seq<byte>

  /** Protobuf int32, the type of every status code on the wire. */
  newtype int32 = x: int | -0x8000_0000 <= x < 0x8000_0000

  /** sdk.DefaultNamespace: the namespace a client uses when none is configured. */
  const DefaultNamespace: string := "default"

  /** The status envelope a host response may carry. */
  datatype Status = Status(code: int32, message: string)

  /** One waPC host call: (namespace, capability, function, payload). The payload is kept as the
      request record rather than its protobuf encoding. */
  datatype HostCall<P> = HostCall(namespace: string, capability: string, operation: string, payload: P)

  /** What decoding the returned bytes into the expected protobuf message gives. */
  datatype Decoded<M> = DecodeFail(cause: Error) | Decoded(msg: M)

  /** What the host call returned: the bytes (seen through decoding) and the transport error.
      Both may be present at once. */
  datatype HostReply<M> = HostReply(payload: Decoded<M>, err: Option<Error>)

  /** The bytes of an ASCII string literal. */
  function Ascii(s: string): (b: Bytes)
    ensures |b| == |s|
  {
    seq(|s|, i requires 0 <= i < |s| => (s[i] as int % 256) as byte)
  }

  /** The loops that copy a map entry by entry into a fresh one (response and request headers,
      the KV mock's seed): the copy equals the source, whatever order the keys are visited in. */
  method CopyMap<K, V>(src: map<K, V>) returns (dst: map<K, V>)
    ensures dst == src
  {
    dst := map[];
    var rest := src.Keys;
    while rest != {}
      invariant rest <= src.Keys
      invariant dst.Keys == src.Keys - rest
      invariant forall k :: k in dst ==> dst[k] == src[k]
      decreases rest
    {
      var k :| k in rest;
      dst := dst[k := src[k]];
      rest := rest - {k};
    }
  }
}
