/** The stopping rules of the two harvest loops, stated over the trace of map
    sizes: `c(i)` is the number of names known after `i` scrolls. */
module StopRules {

  /** Scroll number `i` brought at least one new name. */
  predicate Added(c: nat -> nat, i: nat)
    requires i > 0
  {
    c(i - 1) < c(i)
  }

  /** Some scroll adds no name: exactly the traces on which the JavaScript
      loop ends. */
  ghost predicate Stalls(c: nat -> nat) {
    exists k :: k > 0 && !Added(c, k)
  }

  /** Every scroll before scroll number `k` added a name. */
  ghost predicate AddedBefore(c: nat -> nat, k: nat) {
    forall i :: 0 < i < k ==> Added(c, i)
  }

  /** Before scroll number `i + 1` fewer names than the total were known. */
  predicate BelowTotal(c: nat -> nat, total: nat, i: nat) {
    c(i) < total
  }

  /** The Python loop performs exactly `k` scrolls: the `while` condition
      (fewer names than the total) held before each of them, every scroll
      but the last added a name, and after the last one either the total is
      reached or nothing was added. */
  ghost predicate PyStopsAt(c: nat -> nat, total: nat, k: nat) {
    && (forall i :: 0 <= i < k ==> BelowTotal(c, total, i))
    && AddedBefore(c, k)
    && (c(k) >= total || (k > 0 && c(k) == c(k - 1)))
  }

  /** The JavaScript loop performs exactly `k` scrolls: it always scrolls at
      least once, every scroll but the last added a name, and the last one
      added none. */
  ghost predicate JsStopsAt(c: nat -> nat, k: nat) {
    && k > 0
    && AddedBefore(c, k)
    && c(k) == c(k - 1)
  }

  /** `max(0, total - c(0))`. */
  function PyScrollBound(c: nat -> nat, total: nat): nat {
    if c(0) >= total then 0 else total - c(0)
  }

  /** Every scroll before the last adds a name, so after `i` of them at
      least `i` names have been added. */
  lemma {:induction false} GrowsByStep(c: nat -> nat, k: nat, i: nat)
    requires AddedBefore(c, k)
    requires i < k
    ensures c(i) >= c(0) + i
  {
    if i > 0 {
      GrowsByStep(c, k, i - 1);
      assert Added(c, i);
    }
  }

  /** One more scroll under the `while` condition: the condition held before
      each of the first `k + 1` scrolls. */
  lemma BelowTotalStep(c: nat -> nat, total: nat, k: nat)
    requires forall i :: 0 <= i < k ==> BelowTotal(c, total, i)
    requires c(k) < total
    ensures forall i :: 0 <= i < k + 1 ==> BelowTotal(c, total, i)
  {
  }

  /** One more scroll that added a name. */
  lemma AddedStep(c: nat -> nat, k: nat)
    requires AddedBefore(c, k + 1)
    requires c(k) < c(k + 1)
    ensures AddedBefore(c, k + 2)
  {
  }

  /** Whether scroll `i` added a name is decided either way: brings the
      term `Added(c, i)` into a proof. */
  lemma MentionAdded(c: nat -> nat, i: nat)
    ensures i > 0 ==> (Added(c, i) <==> c(i - 1) < c(i))
  {
  }

  /** The Python stopping point is determined by the trace and the total. */
  lemma PyStopsAtUnique(c: nat -> nat, total: nat, k: nat, k': nat)
    requires PyStopsAt(c, total, k) && PyStopsAt(c, total, k')
    ensures k == k'
  {
    var first := if k < k' then k else k';
    MentionAdded(c, first);
    assert BelowTotal(c, total, first) <==> c(first) < total;
  }

  /** The Python loop scrolls at most `max(0, total - initial size)` times. */
  lemma PyStopsAtBound(c: nat -> nat, total: nat, k: nat)
    requires PyStopsAt(c, total, k)
    ensures k <= PyScrollBound(c, total)
  {
    if k > 0 {
      GrowsByStep(c, k, k - 1);
      assert BelowTotal(c, total, k - 1);
    }
  }

  /** When the trace never exceeds `bound`, the JavaScript loop scrolls at
      most `bound - c(0) + 1` times: each scroll but the last adds a name. */
  lemma JsStopsAtBound(c: nat -> nat, k: nat, bound: nat)
    requires JsStopsAt(c, k)
    requires c(k) <= bound
    ensures c(0) + k <= bound + 1
  {
    GrowsByStep(c, k, k - 1);
  }

  /** The JavaScript loop can only stop on a trace where some scroll adds no
      name. */
  lemma JsStopsAtStalls(c: nat -> nat, k: nat)
    requires JsStopsAt(c, k)
    ensures Stalls(c)
  {
    assert !Added(c, k);
  }

  /** The JavaScript stopping point is the first scroll that adds nothing. */
  lemma JsStopsAtUnique(c: nat -> nat, k: nat, k': nat)
    requires JsStopsAt(c, k) && JsStopsAt(c, k')
    ensures k == k'
  {
    MentionAdded(c, if k < k' then k else k');
  }

  /** The JavaScript stopping point depends only on the values of the trace. */
  lemma JsStopsAtSameTrace(c: nat -> nat, d: nat -> nat, k: nat)
    requires forall i :: c(i) == d(i)
    requires JsStopsAt(c, k)
    ensures JsStopsAt(d, k)
  {
    forall i | 0 < i < k
      ensures Added(d, i)
    {
      assert Added(c, i);
    }
  }

  /** On the same trace the Python loop never scrolls more often than the
      JavaScript loop: it stops at the same stall unless the total is
      reached first. */
  lemma PyNoLaterThanJs(c: nat -> nat, total: nat, kPy: nat, kJs: nat)
    requires PyStopsAt(c, total, kPy) && JsStopsAt(c, kJs)
    ensures kPy <= kJs
  {
    MentionAdded(c, kJs);
  }
}
