/** Redis stream ids: a millisecond time and a sequence number, in lexicographic order. */
module StreamIds {
  datatype Id = Id(ms: nat, n: nat)

  const ZERO := Id(0, 0)

  predicate Less(a: Id, b: Id) {
    a.ms < b.ms || (a.ms == b.ms && a.n < b.n)
  }

  predicate AtMost(a: Id, b: Id) {
    a == b || Less(a, b)
  }
}
