/** The newest-first, capacity-bounded event list both replay views keep:
    `setX(prev => [newEvent, ...prev].slice(0, cap))`. The capacity is a
    parameter; the match engine uses 8 and the replay deck 6. */
module BoundedLog {

  function Min(a: int, b: int): int {
    if a <= b then a else b
  }

  /** `[e, ...log].slice(0, cap)`. */
  function PushFront<T>(log: seq<T>, e: T, cap: nat): (r: seq<T>)
    ensures |r| == Min(|log| + 1, cap)
    ensures |r| <= cap
    ensures cap > 0 ==> r[0] == e
    ensures forall i :: 1 <= i < |r| ==> r[i] == log[i - 1]
  {
    ([e] + log)[..Min(|log| + 1, cap)]
  }

  /** After a push the entries behind the new one are the first
      min(old length, cap - 1) entries of the old log, in the same order:
      the oldest entry is the one dropped. */
  lemma PushFrontKeepsPrefix<T>(log: seq<T>, e: T, cap: nat)
    requires cap > 0
    ensures PushFront(log, e, cap) == [e] + log[..Min(|log|, cap - 1)]
  {
    var r := PushFront(log, e, cap);
    assert |r| == 1 + Min(|log|, cap - 1);
    forall i | 0 <= i < |r|
      ensures r[i] == ([e] + log[..Min(|log|, cap - 1)])[i]
    {
    }
  }

  function Reverse<T>(s: seq<T>): (r: seq<T>)
    ensures |r| == |s|
    ensures forall i :: 0 <= i < |s| ==> r[i] == s[|s| - 1 - i]
  {
    if s == [] then [] else Reverse(s[1..]) + [s[0]]
  }

  /** Pushing `es` one after the other, `es[0]` first. */
  function PushAll<T>(log: seq<T>, es: seq<T>, cap: nat): seq<T>
    decreases |es|
  {
    if es == [] then log else PushAll(PushFront(log, es[0], cap), es[1..], cap)
  }

  /** Pushing a run of events onto a log within capacity leaves the run
      newest-first in front of the old log, cut to the capacity. */
  lemma {:induction false} PushAllNewestFirst<T>(log: seq<T>, es: seq<T>, cap: nat)
    requires |log| <= cap
    ensures PushAll(log, es, cap) == (Reverse(es) + log)[..Min(|es| + |log|, cap)]
    decreases |es|
  {
    if es == [] {
      assert Reverse(es) + log == log;
    } else {
      var p := PushFront(log, es[0], cap);
      PushAllNewestFirst(p, es[1..], cap);
      var k := Min(|log| + 1, cap);
      assert p == ([es[0]] + log)[..k];
      assert Reverse(es) == Reverse(es[1..]) + [es[0]];
      var y := Reverse(es[1..]) + [es[0]] + log;
      assert Reverse(es[1..]) + p == y[..|es| - 1 + k];
      assert Min(|es| - 1 + k, cap) == Min(|es| + |log|, cap);
    }
  }

  /** Once at least `cap` events have been pushed, the log holds exactly the
      last `cap` of them, newest first: older entries were evicted first. */
  lemma LastPushedRetained<T>(log: seq<T>, es: seq<T>, cap: nat)
    requires |log| <= cap <= |es|
    ensures PushAll(log, es, cap) == Reverse(es[|es| - cap..])
  {
    PushAllNewestFirst(log, es, cap);
    var r := PushAll(log, es, cap);
    var w := Reverse(es) + log;
    var tail := es[|es| - cap..];
    assert r == w[..cap];
    forall i | 0 <= i < cap
      ensures r[i] == Reverse(tail)[i]
    {
      assert w[i] == Reverse(es)[i] == es[|es| - 1 - i];
      assert Reverse(tail)[i] == tail[cap - 1 - i];
    }
  }

  /** No sequence of pushes takes a log within capacity past it. */
  lemma {:induction false} PushAllBounded<T>(log: seq<T>, es: seq<T>, cap: nat)
    requires |log| <= cap
    ensures |PushAll(log, es, cap)| == Min(|log| + |es|, cap)
    decreases |es|
  {
    if es != [] {
      PushAllBounded(PushFront(log, es[0], cap), es[1..], cap);
    }
  }
}
