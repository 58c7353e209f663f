/**
 * Password storage as the blog uses it: werkzeug's generate_password_hash with
 * method "pbkdf2:sha256" and an 8-character random salt, and check_password_hash,
 * which re-derives the key from the stored salt and compares.
 *
 * The key derivation itself is a stand-in: the model only relies on it being
 * deterministic and, for a fixed salt, free of collisions.
 */
module Passwords {

  /** The hashing method the register handler asks for. */
  const Method: string := "pbkdf2:sha256"

  /** What the users table stores in place of a password. */
  datatype PasswordHash = PasswordHash(scheme: string, salt: string, key: seq<int>)

  /** Character codes of a string. */
  function Codes(s: string): (codes: seq<int>)
  {
    seq(|s|, i requires 0 <= i < |s| => s[i] as int)
  }

  /** Stand-in for the PBKDF2-HMAC-SHA256 derivation of a key from salt and password. */
  function DeriveKey(salt: string, password: string): (key: seq<int>)
  {
    Codes(salt + "$" + password)
  }

  /** generate_password_hash(password, method='pbkdf2:sha256', salt_length=8), with the random salt given. */
  function GeneratePasswordHash(password: string, salt: string): (hash: PasswordHash)
  {
    PasswordHash(Method, salt, DeriveKey(salt, password))
  }

  /** check_password_hash(stored, candidate): re-derive with the stored salt and compare. */
  predicate CheckPasswordHash(stored: PasswordHash, candidate: string)
  {
    stored.scheme == Method && stored.key == DeriveKey(stored.salt, candidate)
  }

  /** A freshly generated hash accepts exactly the password it was made from:
      the right password logs in and every other one is refused. */
  lemma {:induction false} CheckGeneratedHash(password: string, candidate: string, salt: string)
    ensures CheckPasswordHash(GeneratePasswordHash(password, salt), candidate) <==> candidate == password
  {
    if CheckPasswordHash(GeneratePasswordHash(password, salt), candidate) {
      var a, b := salt + "$" + password, salt + "$" + candidate;
      assert Codes(a) == Codes(b);
      assert |a| == |b|;
      forall i | 0 <= i < |a|
        ensures a[i] == b[i]
      {
        assert Codes(a)[i] == Codes(b)[i];
      }
      assert a == b;
      assert password == a[|salt| + 1..];
      assert candidate == b[|salt| + 1..];
    }
  }
}
