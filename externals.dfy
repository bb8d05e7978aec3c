/**
 * Collaborators the pipeline calls but does not implement: the UUID text
 * form, the JSON codec, UTF-8, the email validator and the password hasher.
 * Each is a parameter (a record of total functions); the laws the pipeline
 * relies on are stated as predicates over that record and required only where
 * a property depends on them.
 */
module Externals {
  import opened Wrappers

  /** A 128-bit UUID. */
  newtype Uuid = x: int | 0 <= x < 0x1_0000_0000_0000_0000_0000_0000_0000_0000

  newtype Byte = x: int | 0 <= x < 256

  type Bytes = seq<Byte>

  /** The string-keyed map form of an event (`to_dict`), as stored in the JSON column. */
  type Payload = map<string, string>

  datatype Codecs = Codecs(
    uuidToStr: Uuid -> string,        // str(uuid)
    parseUuid: string -> Option<Uuid>, // UUID(text); None when it raises ValueError
    jsonDumps: Payload -> Bytes,       // json.dumps(...).encode("utf-8")
    jsonLoads: Bytes -> Option<Payload>, // json.loads(body.decode("utf-8")); None when it raises
    utf8Encode: string -> Bytes,
    utf8Decode: Bytes -> Option<string>, // None when the bytes are not UTF-8
    isEmail: string -> bool            // email_validator.validate_email succeeds
  )

  /** The round trips every real implementation of these codecs satisfies. */
  ghost predicate Lawful(c: Codecs) {
    && (forall u: Uuid :: c.parseUuid(c.uuidToStr(u)) == Some(u))
    && (forall p: Payload :: c.jsonLoads(c.jsonDumps(p)) == Some(p))
    && (forall s: string :: c.utf8Decode(c.utf8Encode(s)) == Some(s))
  }

  /** The password hasher port: `hash(plain)` and `verify(plain, hashed)`. */
  datatype Hasher = Hasher(hash: string -> string, verify: (string, string) -> bool)

  /** A hasher accepts every password against its own hash. */
  ghost predicate Sound(h: Hasher) {
    forall p: string :: h.verify(p, h.hash(p))
  }
}
