/**
 * `Client.generateSignature` (lib/client.js): the request signature is the
 * base64 text of the SHA-256 digest of the secret key, the HTTP method, the
 * path and the canonical query, cut to 43 characters with any trailing `=`
 * removed. SHA-256 and the digest's base64 encoding are an opaque function
 * `digest` supplied by the caller.
 */
module Signing {
  import opened Text
  import opened Query

  const SignatureLength: nat := 43

  /** The text that is hashed: `${secretKey}${method}${path}${query}`. */
  function StringToSign(secretKey: string, httpMethod: string, path: string, query: Params): string
  {
    secretKey + httpMethod + path + Canonical(query)
  }

  function Min(a: nat, b: nat): nat { if a <= b then a else b }

  /** `sha.digest('base64').slice(0, 43).replace(/[=]+$/, '')`. */
  function Signature(digest: string -> string, secretKey: string, httpMethod: string, path: string, query: Params): (sig: string)
    ensures |sig| <= SignatureLength
    ensures sig <= digest(StringToSign(secretKey, httpMethod, path, query))
    ensures |sig| == 0 || sig[|sig| - 1] != '='
    ensures var d := digest(StringToSign(secretKey, httpMethod, path, query));
            forall i :: |sig| <= i < Min(SignatureLength, |d|) ==> d[i] == '='
  {
    var d := digest(StringToSign(secretKey, httpMethod, path, query));
    TrimTrailing(d[..Min(SignatureLength, |d|)], '=')
  }

  /** The base64 text of a 32-byte digest has 44 characters, the last one
      padding; its first 43 characters are then the whole signature. */
  lemma SignatureOfDigestText(digest: string -> string, secretKey: string, httpMethod: string, path: string, query: Params)
    requires var d := digest(StringToSign(secretKey, httpMethod, path, query));
             |d| >= SignatureLength && d[SignatureLength - 1] != '='
    ensures Signature(digest, secretKey, httpMethod, path, query)
            == digest(StringToSign(secretKey, httpMethod, path, query))[..SignatureLength]
  {
  }

  /** Adding the same query parameters in another order signs the same, as
      long as no parameter name contains a comma. */
  lemma SignatureOrderIndependent(digest: string -> string, secretKey: string, httpMethod: string, path: string, a: Params, b: Params)
    requires NoCommaInKeys(a) && multiset(a) == multiset(b)
    ensures Signature(digest, secretKey, httpMethod, path, a) == Signature(digest, secretKey, httpMethod, path, b)
  {
    CanonicalOrderIndependent(a, b);
  }
}
