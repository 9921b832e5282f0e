/** The JSON Web Token library as the authorization core sees it: opaque
    tokens, secrets and errors. Signing and verification happen in the
    library; every operation that needs them takes the encoder or the
    decoder as a function parameter, so nothing is assumed of them. */
module Jwt {
  import opened Wrappers

  /** A secret key as bytes (`&[u8]`). */
  type Secret = seq<bv8>

  /** A compact signed token. */
  type Token = string

  /** `jsonwebtoken::errors::Error`, kept abstract: only its text is carried. */
  datatype JwtError = JwtError(description: string)

  /** `jsonwebtoken::encode` specialised to one claims type and one secret. */
  type Encoder<-C> = (C, Secret) -> Result<Token, JwtError>

  /** `jsonwebtoken::decode` specialised to one claims type, validation included. */
  type Decoder<C> = (Token, Secret) -> Result<C, JwtError>
}
