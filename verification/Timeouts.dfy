/** The delta-encoded timeout list (kernel/sched.c) and the plain map of absolute expiries it stands for.

    s is the order of the tasks in the list, d the delta field of every task's tlink.  A delta counts ticks from the
    expiry of the previous entry, so the expiry of an entry is the sum of the deltas up to and including its own.
    Deltas are unsigned 32-bit words: every subtraction and addition below is taken modulo 2^32, as the C code does.
 */
module Timeouts {
  import opened Links

  const UINT_MOD := 0x1_0000_0000

  /** Sum of the first i deltas of the list. */
  ghost function Sum(s: seq<nat>, d: seq<nat>, i: nat): nat
    requires i <= |s| && InRange(s, d)
  {
    if i == 0 then 0 else Sum(s, d, i - 1) + d[s[i - 1]]
  }

  predicate InRange(s: seq<nat>, d: seq<nat>) {
    forall i :: 0 <= i < |s| ==> s[i] < |d|
  }

  /** Ticks left until task t expires. */
  ghost function Remaining(s: seq<nat>, d: seq<nat>, t: nat): nat
    requires InRange(s, d) && t in s
  {
    Sum(s, d, IndexOf(s, t) + 1)
  }

  ghost predicate WellFormed(s: seq<nat>, d: seq<nat>) {
    && NoDup(s) && InRange(s, d)
    && (s != [] ==> d[s[0]] >= 1)
    && (forall t :: t in s ==> Remaining(s, d, t) < UINT_MOD)
  }

  /** Between two lists, task t may come or go; everyone else keeps its expiry. */
  ghost predicate KeptBut(s: seq<nat>, d: seq<nat>, s': seq<nat>, d': seq<nat>, t: nat) {
    && InRange(s, d) && InRange(s', d')
    && forall u :: u != t ==>
      && (u in s' <==> u in s)
      && (u in s' && u in s ==> Remaining(s', d', u) == Remaining(s, d, u))
  }

  // ----- The operations -----

  /** Where sched_timeout_ins stops, and what is left of the timeout there. */
  function Position(s: seq<nat>, d: seq<nat>, x: nat, i: nat): (r: (nat, nat))
    requires i <= |s| && InRange(s, d)
    ensures i <= r.0 <= |s| && r.1 <= x
    ensures r.0 < |s| ==> d[s[r.0]] >= r.1
    ensures x >= 1 ==> r.1 >= 1
    decreases |s| - i
  {
    if i == |s| || d[s[i]] >= x then (i, x) else Position(s, d, x - d[s[i]], i + 1)
  }

  ghost function Inserted(s: seq<nat>, d: seq<nat>, t: nat, x: nat): (r: (seq<nat>, seq<nat>))
    requires InRange(s, d) && t < |d|
    ensures |r.1| == |d|
  {
    var (i, rest) := Position(s, d, x, 0);
    (InsertAt(s, i, t), if i < |s| then d[s[i] := d[s[i]] - rest][t := rest] else d[t := rest])
  }

  /** The successor of entry k, if there is one, takes over its delta. */
  function Carried(s: seq<nat>, d: seq<nat>, k: nat): (r: seq<nat>)
    requires InRange(s, d) && k < |s|
    ensures |r| == |d|
  {
    if k + 1 < |s| then d[s[k + 1] := (d[s[k + 1]] + d[s[k]]) % UINT_MOD] else d
  }

  ghost function Removed(s: seq<nat>, d: seq<nat>, t: nat): (r: (seq<nat>, seq<nat>))
    requires InRange(s, d) && t in s
    ensures |r.1| == |d|
  {
    (Without(s, t), Carried(s, d, IndexOf(s, t)))
  }

  /** The head's delta after one tick, as sched.c:212 computes it. */
  ghost function Ticked(s: seq<nat>, d: seq<nat>): (r: seq<nat>)
    requires InRange(s, d)
    ensures |r| == |d|
  {
    if s == [] then d else d[s[0] := (d[s[0]] - 1) % UINT_MOD]
  }

  /** How many entries the loop at sched.c:215 takes off the front. */
  ghost function Due(s: seq<nat>, d: seq<nat>): (n: nat)
    requires InRange(s, d)
    ensures n <= |s|
    ensures forall i :: 0 <= i < n ==> d[s[i]] == 0
    ensures n < |s| ==> d[s[n]] != 0
  {
    if s == [] || d[s[0]] != 0 then 0 else 1 + Due(s[1..], d)
  }

  // ----- Sums -----

  lemma SumMonotone(s: seq<nat>, d: seq<nat>, i: nat, j: nat)
    requires i <= j <= |s| && InRange(s, d)
    ensures Sum(s, d, i) <= Sum(s, d, j)
  {
    if i < j { SumMonotone(s, d, i, j - 1); }
  }

  /** Sums of equal lists of deltas are equal. */
  lemma SumEqual(s: seq<nat>, d: seq<nat>, s': seq<nat>, d': seq<nat>, i: nat)
    requires InRange(s, d) && InRange(s', d') && i <= |s| && i <= |s'|
    requires forall j :: 0 <= j < i ==> d[s[j]] == d'[s'[j]]
    ensures Sum(s, d, i) == Sum(s', d', i)
  {
    if i > 0 { SumEqual(s, d, s', d', i - 1); }
  }

  lemma IndexUnique(s: seq<nat>, i: nat)
    requires NoDup(s) && i < |s|
    ensures IndexOf(s, s[i]) == i
  {}

  lemma SumDropped(s: seq<nat>, d: seq<nat>, n: nat, i: nat)
    requires InRange(s, d) && n <= |s| && i <= |s| - n
    requires InRange(s[n..], d)
    ensures Sum(s[n..], d, i) == Sum(s, d, n + i) - Sum(s, d, n)
  {
    if i > 0 { SumDropped(s, d, n, i - 1); }
  }

  // ----- Insertion -----

  lemma PositionSum(s: seq<nat>, d: seq<nat>, x: nat, i: nat)
    requires i <= |s| && InRange(s, d)
    ensures var (p, rest) := Position(s, d, x, i); Sum(s, d, p) + rest == Sum(s, d, i) + x
    decreases |s| - i
  {
    if !(i == |s| || d[s[i]] >= x) { PositionSum(s, d, x - d[s[i]], i + 1); }
  }

  lemma Distinct(s: seq<nat>, i: nat, j: nat)
    requires NoDup(s) && i < j < |s|
    ensures s[i] != s[j]
  {}

  /** Entry by entry: the new one takes what is left of the timeout, and its successor's delta shrinks by as much. */
  lemma InsertedEntries(s: seq<nat>, d: seq<nat>, t: nat, x: nat)
    requires NoDup(s) && InRange(s, d) && t < |d| && t !in s
    ensures var (s', d') := Inserted(s, d, t, x);
            var (p, rest) := Position(s, d, x, 0);
            && NoDup(s') && InRange(s', d') && |s'| == |s| + 1 && s'[p] == t && d'[t] == rest
            && (forall i :: 0 <= i < p ==> s'[i] == s[i] && d'[s'[i]] == d[s[i]])
            && (p < |s| ==> s'[p + 1] == s[p] && d'[s'[p + 1]] == d[s[p]] - rest)
            && (forall i :: p < i < |s| ==> s'[i + 1] == s[i] && d'[s'[i + 1]] == d[s[i]])
  {
    hide Position, InsertAt, NoDup;
    var (s', d') := Inserted(s, d, t, x);
    var p := Position(s, d, x, 0).0;
    InsertNoDup(s, p, t);
    InsertIndex(s, p, t);
    forall i | 0 <= i < |s'| ensures s'[i] < |d'| {
      assert s'[i] == if i < p then s[i] else if i == p then t else s[i - 1];
    }
    forall i | 0 <= i < p ensures s'[i] == s[i] && d'[s'[i]] == d[s[i]] {
      if p < |s| { Distinct(s, i, p); }
    }
    forall i | p < i < |s| ensures s'[i + 1] == s[i] && d'[s'[i + 1]] == d[s[i]] {
      Distinct(s, p, i);
    }
  }

  lemma InsertedSums(s: seq<nat>, d: seq<nat>, t: nat, x: nat, j: nat)
    requires NoDup(s) && InRange(s, d) && t < |d| && t !in s && j <= |s|
    ensures var (s', d') := Inserted(s, d, t, x);
            var p := Position(s, d, x, 0).0;
            && InRange(s', d')
            && (j <= p ==> Sum(s', d', j) == Sum(s, d, j))
            && (j > p ==> Sum(s', d', j + 1) == Sum(s, d, j))
            && Sum(s', d', p + 1) == x
  {
    hide Inserted, Position, NoDup;
    var (s', d') := Inserted(s, d, t, x);
    var (p, rest) := Position(s, d, x, 0);
    InsertedEntries(s, d, t, x);
    PositionSum(s, d, x, 0);
    SumEqual(s, d, s', d', p);
    if j <= p {
      SumEqual(s, d, s', d', j);
    } else {
      InsertedSums(s, d, t, x, j - 1);
    }
  }

  lemma InsertRemaining(s: seq<nat>, d: seq<nat>, t: nat, x: nat, u: nat)
    requires NoDup(s) && InRange(s, d) && t < |d| && t !in s && u in s
    ensures var (s', d') := Inserted(s, d, t, x);
            NoDup(s') && InRange(s', d') && u in s' && Remaining(s', d', u) == Remaining(s, d, u)
  {
    hide Inserted, Position, NoDup, Sum;
    var s' := Inserted(s, d, t, x).0;
    var p, j := Position(s, d, x, 0).0, IndexOf(s, u);
    InsertedEntries(s, d, t, x);
    InsertedSums(s, d, t, x, j + 1);
    var i := if j < p then j else j + 1;
    assert s'[i] == u;
    IndexUnique(s', i);
  }

  /** Inserting a timeout of x ticks makes the task expire in exactly x ticks and moves no other expiry. */
  lemma InsertExact(s: seq<nat>, d: seq<nat>, t: nat, x: nat)
    requires WellFormed(s, d) && t < |d| && t !in s && 1 <= x < UINT_MOD
    ensures var (s', d') := Inserted(s, d, t, x);
            && WellFormed(s', d')
            && t in s' && Remaining(s', d', t) == x
            && KeptBut(s, d, s', d', t)
  {
    var (s', d') := Inserted(s, d, t, x);
    InsertedSums(s, d, t, x, 0);
    IndexUnique(s', Position(s, d, x, 0).0);
    InsertMembers(s, Position(s, d, x, 0).0, t);
    forall u | u in s ensures u in s' && Remaining(s', d', u) == Remaining(s, d, u) {
      InsertRemaining(s, d, t, x, u);
    }
  }

  lemma {:induction false} PositionBounds(s: seq<nat>, d: seq<nat>, x: nat, i: nat)
    requires i <= |s| && InRange(s, d) && x >= 1
    ensures var p := Position(s, d, x, i).0;
            && (p > i ==> Sum(s, d, p) < Sum(s, d, i) + x)
            && (p < |s| ==> Sum(s, d, p + 1) >= Sum(s, d, i) + x)
    decreases |s| - i
  {
    if !(i == |s| || d[s[i]] >= x) {
      PositionBounds(s, d, x - d[s[i]], i + 1);
    }
  }

  /** A new entry stands behind exactly the entries that expire before it: of those that expire with it, it will be the
      first to be woken. */
  lemma InsertOrder(s: seq<nat>, d: seq<nat>, t: nat, x: nat, u: nat)
    requires WellFormed(s, d) && t < |d| && t !in s && 1 <= x < UINT_MOD && u in s
    ensures var s' := Inserted(s, d, t, x).0;
            && t in s' && u in s'
            && (IndexOf(s', u) < IndexOf(s', t) <==> Remaining(s, d, u) < x)
  {
    hide Inserted, Position, NoDup, WellFormed, Sum;
    WellFormedParts(s, d);
    var s' := Inserted(s, d, t, x).0;
    var p, j := Position(s, d, x, 0).0, IndexOf(s, u);
    InsertedEntries(s, d, t, x);
    PositionBounds(s, d, x, 0);
    NoSum(s, d);
    IndexUnique(s', p);
    IndexUnique(s', if j < p then j else j + 1);
    if j < p { SumMonotone(s, d, j + 1, p); } else { SumMonotone(s, d, p + 1, j + 1); }
  }

  lemma NoSum(s: seq<nat>, d: seq<nat>)
    requires InRange(s, d)
    ensures Sum(s, d, 0) == 0
  {}

  // ----- Removal -----

  lemma RemovedSums(s: seq<nat>, d: seq<nat>, k: nat, j: nat)
    requires NoDup(s) && InRange(s, d) && k < |s| && j <= |s|
    requires forall i: nat :: i <= |s| ==> Sum(s, d, i) < UINT_MOD
    ensures var (s', d') := Removed(s, d, s[k]);
            && s' == DropAt(s, k) && InRange(s', d')
            && (j <= k ==> Sum(s', d', j) == Sum(s, d, j))
            && (j > k + 1 ==> Sum(s', d', j - 1) == Sum(s, d, j))
  {
    hide Removed, NoDup;
    var (s', d') := Removed(s, d, s[k]);
    RemovedEntries(s, d, k);
    if j <= k {
      SumEqual(s, d, s', d', j);
    } else if j == k + 2 {
      SumEqual(s, d, s', d', k);
      assert Sum(s, d, k + 1) == Sum(s, d, k) + d[s[k]];
      assert Sum(s, d, j) == Sum(s, d, k + 1) + d[s[k + 1]];
    } else if j > k + 2 {
      RemovedSums(s, d, k, j - 1);
    }
  }

  lemma RemovedIs(s: seq<nat>, d: seq<nat>, k: nat)
    requires NoDup(s) && InRange(s, d) && k < |s| && (k + 1 < |s| ==> d[s[k]] + d[s[k + 1]] < UINT_MOD)
    ensures Removed(s, d, s[k])
         == (DropAt(s, k), if k + 1 < |s| then d[s[k + 1] := d[s[k]] + d[s[k + 1]]] else d)
  {
    IndexUnique(s, k);
  }

  lemma TwoDeltasBounded(s: seq<nat>, d: seq<nat>, k: nat)
    requires InRange(s, d) && k + 1 < |s| && Sum(s, d, k + 2) < UINT_MOD
    ensures d[s[k]] + d[s[k + 1]] < UINT_MOD
  {
    assert Sum(s, d, k + 1) == Sum(s, d, k) + d[s[k]];
  }

  /** Entry by entry: removal adds the delta of the removed entry to its successor. */
  lemma RemovedEntries(s: seq<nat>, d: seq<nat>, k: nat)
    requires NoDup(s) && InRange(s, d) && k < |s|
    requires forall i: nat :: i <= |s| ==> Sum(s, d, i) < UINT_MOD
    ensures var (s', d') := Removed(s, d, s[k]);
            && s' == DropAt(s, k) && InRange(s', d')
            && (forall i :: 0 <= i < k ==> s'[i] == s[i] && d'[s'[i]] == d[s[i]])
            && (k + 1 < |s| ==> s'[k] == s[k + 1] && d'[s'[k]] == d[s[k]] + d[s[k + 1]])
            && (forall i :: k + 1 <= i < |s| - 1 ==> s'[i] == s[i + 1] && d'[s'[i]] == d[s[i + 1]])
  {
    hide Removed, Sum;
    if k + 1 < |s| { TwoDeltasBounded(s, d, k); }
    RemovedIs(s, d, k);
    var (s', d') := Removed(s, d, s[k]);
    forall i | 0 <= i < k ensures s'[i] == s[i] && d'[s'[i]] == d[s[i]] {
      assert s'[i] == s[i];
      if k + 1 < |s| { assert s[i] != s[k + 1]; }
    }
    forall i | k + 1 <= i < |s| - 1 ensures s'[i] == s[i + 1] && d'[s'[i]] == d[s[i + 1]] {
      assert s[k + 1] != s[i + 1];
    }
  }

  lemma SumsBounded(s: seq<nat>, d: seq<nat>)
    requires WellFormed(s, d)
    ensures forall i: nat :: i <= |s| ==> Sum(s, d, i) < UINT_MOD
  {
    forall i: nat | i <= |s| ensures Sum(s, d, i) < UINT_MOD {
      if i > 0 { IndexUnique(s, i - 1); assert s[i - 1] in s; }
    }
  }

  lemma WellFormedParts(s: seq<nat>, d: seq<nat>)
    requires WellFormed(s, d)
    ensures NoDup(s) && InRange(s, d)
  {}

  lemma DropNoDup(s: seq<nat>, k: nat)
    requires NoDup(s) && k < |s|
    ensures NoDup(DropAt(s, k))
  {}

  lemma RemoveRemaining(s: seq<nat>, d: seq<nat>, k: nat, j: nat)
    requires WellFormed(s, d) && k < |s| && j < |s| && j != k
    ensures var (s', d') := Removed(s, d, s[k]);
            NoDup(s') && InRange(s', d') && s[j] in s' && Remaining(s', d', s[j]) == Remaining(s, d, s[j])
  {
    hide Sum, Removed, NoDup, WellFormed;
    WellFormedParts(s, d);
    SumsBounded(s, d);
    RemovedSums(s, d, k, j + 1);
    IndexUnique(s, j);
    var s' := DropAt(s, k);
    var i := if j < k then j else j - 1;
    assert s'[i] == s[j];
    DropNoDup(s, k);
    IndexUnique(s', i);
  }

  /** Cancelling a timeout moves no other expiry, and the carried delta never overflows. */
  lemma RemoveExact(s: seq<nat>, d: seq<nat>, t: nat)
    requires WellFormed(s, d) && t in s
    ensures var (s', d') := Removed(s, d, t);
            && WellFormed(s', d') && t !in s'
            && KeptBut(s, d, s', d', t)
  {
    var (s', d') := Removed(s, d, t);
    SumsBounded(s, d);
    RemovedSums(s, d, IndexOf(s, t), 0);
    WithoutMembers(s, t);
    WithoutNoDup(s, t);
    forall u | u in s && u != t ensures u in s' && Remaining(s', d', u) == Remaining(s, d, u) {
      RemoveRemaining(s, d, IndexOf(s, t), IndexOf(s, u));
    }
    if s' != [] {
      IndexUnique(s', 0);
      assert Remaining(s', d', s'[0]) == d'[s'[0]];
      SumMonotone(s, d, 1, IndexOf(s, s'[0]) + 1);
    }
  }

  // ----- The tick -----

  lemma TickedSums(s: seq<nat>, d: seq<nat>, j: nat)
    requires NoDup(s) && InRange(s, d) && s != [] && 1 <= d[s[0]] < UINT_MOD && 1 <= j <= |s|
    ensures Sum(s, Ticked(s, d), j) == Sum(s, d, j) - 1
  {
    if j > 1 { TickedSums(s, d, j - 1); }
  }

  lemma DueSum(s: seq<nat>, d: seq<nat>, j: nat)
    requires InRange(s, d) && j <= Due(s, d)
    ensures Sum(s, d, j) == 0
  {
    if j > 0 { DueSum(s, d, j - 1); }
  }

  /** The loop takes off exactly the entries whose expiry has come. */
  lemma DueIff(s: seq<nat>, d: seq<nat>, j: nat)
    requires InRange(s, d) && j < |s|
    ensures j < Due(s, d) <==> Sum(s, d, j + 1) == 0
  {
    var n := Due(s, d);
    if j < n {
      DueSum(s, d, j + 1);
    } else {
      assert Sum(s, d, n + 1) >= d[s[n]] >= 1;
      SumMonotone(s, d, n + 1, j + 1);
    }
  }

  lemma TickDue(s: seq<nat>, d: seq<nat>, j: nat)
    requires WellFormed(s, d) && j < |s|
    ensures Sum(s, Ticked(s, d), j + 1) == Remaining(s, d, s[j]) - 1
  {
    IndexUnique(s, 0);
    IndexUnique(s, j);
    assert Remaining(s, d, s[0]) == Sum(s, d, 1) == d[s[0]];
    TickedSums(s, d, j + 1);
  }

  lemma TickRemaining(s: seq<nat>, d: seq<nat>, n: nat, j: nat)
    requires NoDup(s) && InRange(s, d) && n <= j < |s| && Sum(s, d, n) == 0
    ensures s[j] in s[n..] && InRange(s[n..], d) && Remaining(s[n..], d, s[j]) == Sum(s, d, j + 1)
  {
    assert s[n..][j - n] == s[j];
    IndexUnique(s[n..], j - n);
    SumDropped(s, d, n, j - n + 1);
  }

  /** One tick takes off exactly the entries with one tick left, and every other entry comes one tick closer. */
  lemma TickExact(s: seq<nat>, d: seq<nat>)
    requires WellFormed(s, d)
    ensures var d' := Ticked(s, d);
            var s' := s[Due(s, d')..];
            && WellFormed(s', d')
            && (forall u :: u in s ==> (u in s' <==> Remaining(s, d, u) > 1))
            && forall u :: u in s' ==> u in s && Remaining(s', d', u) == Remaining(s, d, u) - 1
  {
    hide Sum, Remaining, Ticked, Due;
    var d' := Ticked(s, d);
    var n := Due(s, d');
    var s' := s[n..];
    DueSum(s, d', n);
    forall u | u in s
      ensures u in s' <==> Remaining(s, d, u) > 1
      ensures u in s' ==> Remaining(s', d', u) == Remaining(s, d, u) - 1
    {
      var j := IndexOf(s, u);
      TickDue(s, d, j);
      DueIff(s, d', j);
      assert Remaining(s, d, u) == Remaining(s, d, s[j]);
      if j >= n { TickRemaining(s, d', n, j); }
      if u in s' {
        var i :| 0 <= i < |s'| && s'[i] == u;
        assert s[n + i] == u;
      }
    }
    if s' != [] { assert s'[0] == s[n]; }
  }

  /** With a zero delta at the head the subtraction wraps, so nothing leaves the list although the head is due. */
  lemma ZeroHeadStays(s: seq<nat>, d: seq<nat>)
    requires InRange(s, d) && s != [] && d[s[0]] == 0
    ensures Due(s, Ticked(s, d)) == 0 && Sum(s, d, 1) == 0
  {
    hide NoDup;
  }

  /** The tick is exact if and only if the head's delta is not 0. */
  lemma TickExactIff(s: seq<nat>, d: seq<nat>)
    requires NoDup(s) && InRange(s, d) && s != []
    requires forall t :: t in s ==> Remaining(s, d, t) < UINT_MOD
    ensures var s' := s[Due(s, Ticked(s, d))..];
            (forall u :: u in s ==> (u in s' <==> Remaining(s, d, u) > 1)) <==> d[s[0]] != 0
  {
    hide Sum, Due, Ticked, NoDup;
    if d[s[0]] != 0 {
      TickExact(s, d);
    } else {
      IndexUnique(s, 0);
      ZeroHeadStays(s, d);
      assert s[0] in s[0..];
    }
  }
}
