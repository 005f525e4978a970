/**
 * The claims of a verified HS256 token, as the notes service sees them after
 * the verifier middleware has accepted the signature. Signing and checking
 * the signature are outside the model: a token is its claims map.
 */
module Jwt {

  /** Decoded claims; a key that is not present reads as a missing claim. */
  type Claims = map<string, string>

  const UsernameKey: string := "username"
  const PasswordKey: string := "password"
}
