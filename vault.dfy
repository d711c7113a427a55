/**
 * The token vault (`EncryptionManager`, core/encryption.py). Fernet is modelled by what the rest of
 * the system relies on: a ciphertext made under a key opens under that key and no other, and
 * anything that is not such a ciphertext does not open at all.
 */
module Vault {
  import opened Wrappers

  /**
   * A stored `access_token` value. `Sealed` is a Fernet token made under `key` for `plain`; `nonce`
   * stands for Fernet's random IV and timestamp, so two encryptions of one token may differ.
   * `Opaque` is any other stored string (the empty placeholder of a fresh configuration, a pasted
   * plaintext, a truncated token).
   */
  datatype Ciphertext = Sealed(key: string, nonce: nat, plain: string) | Opaque(text: string)

  /** Python truthiness of the stored string: a Fernet token is never empty. */
  predicate Truthy(c: Ciphertext) {
    c.Sealed? || c.text != ""
  }

  /** `encrypt_token`: the key must be present, otherwise the manager cannot be built at all. */
  function Encrypt(key: string, nonce: nat, plain: string): (c: Ciphertext)
    requires key != ""
    ensures Truthy(c)
    ensures c.Sealed? && c.key == key
  {
    Sealed(key, nonce, plain)
  }

  /** `decrypt_token`: `None` stands for Fernet's `InvalidToken`. */
  function Decrypt(key: string, c: Ciphertext): (r: Option<string>)
    requires key != ""
    ensures r.Some? <==> c.Sealed? && c.key == key
  {
    match c
    case Sealed(k, _, p) => if k == key then Some(p) else None
    case Opaque(_) => None
  }

  /** A token encrypted under a key decrypts back to itself under that key. */
  lemma RoundTrip(key: string, nonce: nat, plain: string)
    requires key != ""
    ensures Decrypt(key, Encrypt(key, nonce, plain)) == Some(plain)
  {
  }

  /** A token encrypted under one key never opens under another. */
  lemma ForeignKeyFails(key: string, other: string, nonce: nat, plain: string)
    requires key != "" && other != "" && key != other
    ensures Decrypt(other, Encrypt(key, nonce, plain)) == None
  {
  }
}
