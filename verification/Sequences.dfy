/** What is said of sequences in more than one place. */
module Sequences {

  predicate NoRepeat(s: seq<int>) {
    forall i, k | 0 <= i < k < |s| :: s[i] != s[k]
  }

  /** An order in which a map may hold its entries. */
  ghost predicate EntriesOf(order: seq<int>, keys: set<int>) {
    (forall key :: key in order <==> key in keys) && NoRepeat(order)
  }
}
