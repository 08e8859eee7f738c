/** Facts about sequences of moments, for runs of any kind: what holds at each of them, and what is
    switched on and off between them. */
module Histories {

  /** What holds first, and goes on holding from each moment to the next, holds always. */
  lemma {:induction false} Always(holds: seq<bool>, n: nat)
    requires n < |holds| && holds[0]
    requires forall i :: 0 <= i < |holds| - 1 && holds[i] ==> holds[i + 1]
    ensures holds[n]
  {
    if n > 0 {
      Always(holds, n - 1);
    }
  }

  /** Not switched off from moment `m` on, before `n`. */
  predicate Untouched(off: seq<bool>, m: nat, n: nat)
    requires n <= |off|
  {
    forall j :: m <= j < n ==> !off[j]
  }

  /** Switched on from moment `m` on, before `n`, and not switched off after that. */
  ghost predicate OnSince(on: seq<bool>, off: seq<bool>, m: nat, n: nat)
    requires n <= |on| == |off|
  {
    exists i: nat :: m <= i < n && on[i] && Untouched(off, i + 1, n)
  }

  lemma OnSinceStep(on: seq<bool>, off: seq<bool>, m: nat, n: nat)
    requires m <= n < |on| == |off|
    ensures OnSince(on, off, m, n + 1) <==> on[n] || (OnSince(on, off, m, n) && !off[n])
  {
    if on[n] {
      assert Untouched(off, n + 1, n + 1);
    }
    if OnSince(on, off, m, n) && !off[n] {
      var i: nat :| m <= i < n && on[i] && Untouched(off, i + 1, n);
      assert Untouched(off, i + 1, n + 1);
    }
    if OnSince(on, off, m, n + 1) && !on[n] {
      var i: nat :| m <= i < n + 1 && on[i] && Untouched(off, i + 1, n + 1);
      assert Untouched(off, i + 1, n);
    }
  }

  /** What is switched on and off follows its history, from any moment on. */
  lemma {:induction false} Follows(state: seq<bool>, on: seq<bool>, off: seq<bool>, m: nat, n: nat)
    requires m <= n <= |on| == |off| && |state| == |on| + 1
    requires forall i :: 0 <= i < |on| ==> (state[i + 1] <==> on[i] || (state[i] && !off[i]))
    ensures state[n] <==> OnSince(on, off, m, n) || (state[m] && Untouched(off, m, n))
  {
    if n > m {
      Follows(state, on, off, m, n - 1);
      OnSinceStep(on, off, m, n - 1);
    }
  }

  /** What is only ever switched on is on exactly when it has been. */
  lemma {:induction false} StaysOn(state: seq<bool>, on: seq<bool>, n: nat)
    requires n <= |on| && |state| == |on| + 1 && !state[0]
    requires forall i :: 0 <= i < |on| ==> (state[i + 1] <==> on[i] || state[i])
    ensures state[n] <==> exists i :: 0 <= i < n && on[i]
  {
    if n > 0 {
      StaysOn(state, on, n - 1);
    }
  }
}
