/** Certificate files, and the two ways to end a certificate transaction. */
module Pems {
  import opened Outcomes

  /** A PEM file: the fingerprint of its first certificate (0 if it has none) and all the rest.
      Digests are injective, so a digest is represented by the contents it was taken of. */
  datatype Pem = Pem(leaf: nat, rest: seq<nat>)

  datatype Operation = RollBack | CommitJournal

  function Leaf(pem: Option<Pem>): nat {
    if pem.Some? then pem.value.leaf else 0
  }
}
