/** The cursor tokens of a request, and the token codecs both paging
    classes use, left abstract: `jsonwebtoken`'s `sign`/`verify` under a
    secret, and `JSON.stringify`/`JSON.parse` for the unsigned case. `None`
    stands for a thrown exception. */
module Codec {
  import opened Wrappers
  import opened Values

  datatype Codec = Codec(
    sign: (Doc, string) -> string,
    verify: (string, string) -> Option<Value>,
    stringify: Doc -> string,
    parse: string -> Option<Value>)

  /** `paging.cursors`: the two tokens a request may carry. */
  datatype Cursors = Cursors(after: Option<string>, before: Option<string>)

  /** The secret when `NEMOPA_SECRET` is unset or empty. */
  const DefaultSecret: string := "this-is-default"

  /** `process.env.NEMOPA_SECRET || 'this-is-default'`: the secret is never
      empty, so the codecs always sign and verify, never fall back to JSON. */
  function SecretFrom(env: Option<string>): (r: string)
    ensures r != ""
    ensures env.Some? && env.value != "" ==> r == env.value
    ensures env.None? || env.value == "" ==> r == DefaultSecret
  {
    if env.Some? && env.value != "" then env.value else DefaultSecret
  }

  /** Verifying what was signed gives back a non-empty token's payload,
      possibly extended with claims the library adds itself (such as `iat`). */
  ghost predicate RecoversPayload(c: Codec, secret: string, payload: Doc) {
    var t := c.sign(payload, secret);
    var v := c.verify(t, secret);
    t != "" && v.Some? && v.value.Obj?
    && forall k :: k in payload ==> k in v.value.fields && v.value.fields[k] == payload[k]
  }
}
