/** The challenge-response credential the page attaches to every privileged request.
    SHA-256 with hexadecimal output (the sjcl library) is a parameter: `sha256Hex(s)` is
    `sjcl.codec.hex.fromBits(sjcl.hash.sha256.hash(s))`, lower-case hex. */
module Auth {
  import opened Wrappers
  import opened Text

  /** What `inputAdminCodeHash` holds after `updateCurrentAdminCodeHash`: the upper-cased hex
      digest of the admin-code field. */
  function AdminHash(sha256Hex: string -> string, adminCode: string): (h: string)
    ensures |h| == |sha256Hex(adminCode)| && NoLower(h)
    ensures Upper(h) == h
  {
    UpperHasNoLower(sha256Hex(adminCode));
    UpperIdempotent(sha256Hex(adminCode));
    Upper(sha256Hex(adminCode))
  }

  /** The text `inputAdminCodeHash + ...` contributes: the variable starts out `undefined`,
      which string concatenation renders as "undefined". */
  function CachedText(cached: Option<string>): string {
    match cached
    case None => "undefined"
    case Some(h) => h
  }

  /** The Authorization header: the digest of the cached hash followed by the upper-cased salt.
      Unlike the cached hash, the token itself is left in the digest's own case. */
  function Token(sha256Hex: string -> string, cached: Option<string>, salt: string): string {
    sha256Hex(CachedText(cached) + Upper(salt))
  }

  /** The salt's case does not matter: salts that differ only in case give the same token. */
  lemma TokenIgnoresSaltCase(sha256Hex: string -> string, cached: Option<string>, salt: string)
    ensures Token(sha256Hex, cached, Upper(salt)) == Token(sha256Hex, cached, salt)
  {
    UpperIdempotent(salt);
  }

  /** After a login the token is the digest of the case-normalized pair "cached hash, salt":
      upper-casing the salt alone is the same as upper-casing the whole concatenation. */
  lemma TokenOfNormalizedPair(sha256Hex: string -> string, adminCode: string, salt: string)
    ensures var h := AdminHash(sha256Hex, adminCode);
      Token(sha256Hex, Some(h), salt) == sha256Hex(Upper(h + salt))
  {
    var h := AdminHash(sha256Hex, adminCode);
    UpperConcat(h, salt);
  }
}
