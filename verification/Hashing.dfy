/** The one assumption about digests: a hash is an unknown function that never collides and prints hexadecimal. */
module Hashing {
  import opened Numerals

  type Hash = string -> string

  ghost predicate CollisionFree(hash: Hash) {
    && (forall a, b :: hash(a) == hash(b) ==> a == b)
    && (forall a :: AllDigits(hash(a), Hex))
  }
}
