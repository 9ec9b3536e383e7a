/** SHA-256 taken as an injective function of what is hashed. */
module Digests {

  datatype Digest<T> = Sha256(of: T)
}
