/** Fingerprints of command-signing keys, as the key store accepts them. */
module Fingerprints {

  predicate IsFingerprintChar(c: char) {
    'A' <= c <= 'Z' || 'a' <= c <= 'z' || '0' <= c <= '9' || c == '_' || c == '-'
  }

  predicate IsFingerprint(s: string) {
    && "cl:" <= s && 16 <= |s| - 3 <= 64
    && forall i | 3 <= i < |s| :: IsFingerprintChar(s[i])
  }
}
