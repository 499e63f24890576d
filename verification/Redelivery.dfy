/** Redelivery: the queue delivers at least once, and the agent hands a message back when it failed in
    a way that may pass. A run of deliveries is read through its last block of equal failures. */
module Redelivery {
  const MAX_TRANSIENT_ATTEMPTS := 5

  datatype Outcome = Success | PermanentFailure(reason: string) | TransientFailure(reason: string)

  /** One delivery of a message, and whether it was handed back to the queue for another. */
  datatype Delivery = Delivery(raw: string, outcome: Outcome, again: bool)

  // ---------------------------------------------------------------- retries

  /** The length of the block of transient failures of the last message that ends the history. */
  function Block(h: seq<Delivery>): (r: nat)
    ensures r <= |h|
  {
    if h == [] || !h[|h|-1].outcome.TransientFailure? then 0
    else if |h| >= 2 && h[|h|-2].raw == h[|h|-1].raw then 1 + Block(h[..|h|-1])
    else 1
  }

  /** A delivery is handed back exactly when it failed transiently and does not fill up a block of five. */
  ghost predicate Bounded(h: seq<Delivery>) {
    forall i | 0 <= i < |h| :: BoundedAt(h, i)
  }

  ghost predicate BoundedAt(h: seq<Delivery>, i: nat)
    requires i < |h|
  {
    h[i].again <==> h[i].outcome.TransientFailure? && Block(h[..i+1]) % MAX_TRANSIENT_ATTEMPTS != 0
  }

  lemma BoundedNext(h: seq<Delivery>, d: Delivery)
    requires Bounded(h)
    requires d.again <==> d.outcome.TransientFailure? && Block(h + [d]) % MAX_TRANSIENT_ATTEMPTS != 0
    ensures Bounded(h + [d])
  {
    var h' := h + [d];
    forall i | 0 <= i < |h'| ensures BoundedAt(h', i) {
      if i < |h| {
        assert h'[..i+1] == h[..i+1];
        assert BoundedAt(h, i);
      } else {
        assert h'[..i+1] == h';
      }
    }
  }

  lemma BlockNext(h: seq<Delivery>, d: Delivery)
    ensures Block(h + [d]) ==
      if !d.outcome.TransientFailure? then 0
      else if h != [] && h[|h|-1].raw == d.raw then 1 + Block(h)
      else 1
  {
    assert (h + [d])[..|h|] == h;
  }

  /** No message is handed back five times in a row. */
  lemma NeverFiveInARow(h: seq<Delivery>, i: nat)
    requires Bounded(h) && i + MAX_TRANSIENT_ATTEMPTS <= |h|
    requires forall k | i <= k < i + MAX_TRANSIENT_ATTEMPTS :: h[k].raw == h[i].raw
    ensures exists k :: i <= k < i + MAX_TRANSIENT_ATTEMPTS && !h[k].again
  {
    var b := Block(h[..i+1]);
    var k := if b % 5 == 0 then 0 else 5 - b % 5;
    if forall j | i <= j <= i + k :: h[j].outcome.TransientFailure? {
      BlockGrows(h, i, k);
      assert (b + k) % 5 == 0;
      assert BoundedAt(h, i + k);
    } else {
      var j :| i <= j <= i + k && !h[j].outcome.TransientFailure?;
      assert BoundedAt(h, j);
    }
  }

  lemma {:induction false} BlockGrows(h: seq<Delivery>, i: nat, k: nat)
    requires i + k < |h| && forall j | i <= j <= i + k :: h[j].raw == h[i].raw && h[j].outcome.TransientFailure?
    ensures Block(h[..i+k+1]) == Block(h[..i+1]) + k
    decreases k
  {
    if k > 0 {
      BlockGrows(h, i, k - 1);
      assert h[..i+k+1] == h[..i+k] + [h[i+k]];
      BlockNext(h[..i+k], h[i+k]);
    }
  }

  /** `n` deliveries of two messages in turn, all failing transiently and all handed back. */
  function Alternating(a: string, b: string, n: nat): (h: seq<Delivery>) {
    seq(n, i requires 0 <= i => Delivery(if i % 2 == 0 then a else b, TransientFailure(""), true))
  }

  /** The bound is on uninterrupted deliveries only: two failing messages that take turns are handed
      back for ever. */
  lemma {:induction false} TwoMessagesForever(a: string, b: string, n: nat)
    requires a != b
    ensures Bounded(Alternating(a, b, n)) && |Alternating(a, b, n)| == n
    ensures forall i | 0 <= i < n :: Alternating(a, b, n)[i].again
  {
    if n > 0 {
      TwoMessagesForever(a, b, n - 1);
      var h, d := Alternating(a, b, n - 1), Alternating(a, b, n)[n-1];
      assert Alternating(a, b, n) == h + [d];
      BlockNext(h, d);
      assert n > 1 ==> h[n-2].raw != d.raw;
      hide Block, Bounded;
      assert Block(h + [d]) == 1;
      BoundedNext(h, d);
    }
  }
}
