// Stock helpers shared by every component: optional values and the last element of a sequence.
module Basics {
  datatype Option<+T> = None | Some(value: T)

  function Last<T>(s: seq<T>): T
    requires |s| > 0
  {
    s[|s| - 1]
  }

  function DropLast<T>(s: seq<T>): seq<T>
    requires |s| > 0
  {
    s[..|s| - 1]
  }
}

// Counting the entries of a map that satisfy a predicate: threads at a program counter, open slots.
module Counting {
  ghost function Where<K, V>(m: map<K, V>, p: V -> bool): set<K> {
    set k | k in m && p(m[k])
  }

  function Bit(b: bool): int {
    if b then 1 else 0
  }

  // Ranging over a Go map or set: some element, no telling which.
  method Pick<T>(s: set<T>) returns (x: T)
    requires s != {}
    ensures x in s
  {
    x :| x in s;
  }

  lemma {:induction false} SubsetSmaller<T>(a: set<T>, b: set<T>)
    requires a <= b
    ensures |a| <= |b|
    decreases a
  {
    if a != {} {
      var x :| x in a;
      SubsetSmaller(a - {x}, b - {x});
    }
  }

  // Changing one entry changes the count by what that entry was and is.
  lemma WhereMoved<K, V>(m: map<K, V>, p: V -> bool, k: K, v: V)
    ensures Where(m[k := v], p) == if p(v) then Where(m, p) + {k} else Where(m, p) - {k}
    ensures |Where(m[k := v], p)| == |Where(m, p)| + Bit(p(v)) - Bit(k in m && p(m[k]))
  {
    var a, b := Where(m, p), Where(m[k := v], p);
    assert b == if p(v) then a + {k} else a - {k};
    if p(v) && k in a {
      assert b == a;
    } else if !p(v) && k !in a {
      assert b == a;
    }
  }
}

// Runs of a transition system: finite sequences of states, each related to the next.
module Runs {
  ghost predicate IsRun<S(!new)>(init: S -> bool, next: (S, S) -> bool, run: seq<S>) {
    && |run| > 0
    && init(run[0])
    && forall i, j :: 0 <= i < j < |run| && j == i + 1 ==> next(run[i], run[j])
  }

  ghost predicate Reachable<S(!new)>(init: S -> bool, next: (S, S) -> bool, s: S) {
    exists run :: IsRun(init, next, run) && run[|run| - 1] == s
  }

  lemma Extended<S(!new)>(init: S -> bool, next: (S, S) -> bool, run: seq<S>, s: S)
    requires IsRun(init, next, run) && next(run[|run| - 1], s)
    ensures IsRun(init, next, run + [s])
  {
  }

  // An inductive invariant holds in every state of every run.
  lemma {:induction false} InvariantOverRun<S(!new)>(
    init: S -> bool, next: (S, S) -> bool, inv: S -> bool, run: seq<S>, i: nat)
    requires forall s :: init(s) ==> inv(s)
    requires forall s, t :: inv(s) && next(s, t) ==> inv(t)
    requires IsRun(init, next, run) && i < |run|
    ensures inv(run[i])
  {
    if i == 0 {
    } else {
      InvariantOverRun(init, next, inv, run, i - 1);
      assert next(run[i - 1], run[i]);
    }
  }

  // The same, for one reachable state.
  lemma InvariantReachable<S(!new)>(init: S -> bool, next: (S, S) -> bool, inv: S -> bool, s: S)
    requires forall s :: init(s) ==> inv(s)
    requires forall s, t :: inv(s) && next(s, t) ==> inv(t)
    requires Reachable(init, next, s)
    ensures inv(s)
  {
    var run :| IsRun(init, next, run) && run[|run| - 1] == s;
    InvariantOverRun(init, next, inv, run, |run| - 1);
  }

  // A property that the steps out of invariant states keep, once true, stays true for the rest of the run.
  lemma {:induction false} StableOverRun<S(!new)>(
    init: S -> bool, next: (S, S) -> bool, inv: S -> bool, p: S -> bool, run: seq<S>, i: nat, j: nat)
    requires forall s :: init(s) ==> inv(s)
    requires forall s, t :: inv(s) && next(s, t) ==> inv(t)
    requires forall s, t :: inv(s) && p(s) && next(s, t) ==> p(t)
    requires IsRun(init, next, run) && i <= j < |run|
    requires p(run[i])
    ensures p(run[j])
    decreases j
  {
    if i < j {
      StableOverRun(init, next, inv, p, run, i, j - 1);
      InvariantOverRun(init, next, inv, run, j - 1);
      assert next(run[j - 1], run[j]);
    }
  }
}
