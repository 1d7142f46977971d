/** The intrusive, cyclic, doubly linked lists of the kernel.

    Every list is threaded through T_LINK fields at fixed addresses: a base link per queue (tsk_pri[p],
    sem[s].wlink, mtx[m].wlink, timeout) and three links inside every task (plink, wlink, tlink).  An address is
    a value of Addr, and the prev/next fields are two maps from addresses to addresses, so aliasing between
    links is visible to the proofs.  A queue is the sequence of task ids met by following next from its base.
 */
module Links {
  /** Which of the three links of a task a queue is threaded through. */
  datatype Kind = P | W | T

  /** The base links: tsk_pri[p], sem[s].wlink, mtx[m].wlink and timeout. */
  datatype Head = Ready(p: nat) | SemQ(s: nat) | MtxQ(m: nat) | Tmo

  datatype Addr = Base(h: Head) | Node(k: Kind, t: nat)

  /** The next and prev fields of all links. */
  datatype Mem = Mem(next: map<Addr, Addr>, prev: map<Addr, Addr>)

  type Queues = map<Head, seq<nat>>

  function KindOf(h: Head): Kind {
    match h
    case Ready(_) => P
    case SemQ(_) => W
    case MtxQ(_) => W
    case Tmo => T
  }

  // ----- Sequences of task ids -----

  ghost predicate NoDup(s: seq<nat>) {
    forall i, j :: 0 <= i < j < |s| ==> s[i] != s[j]
  }

  ghost function IndexOf(s: seq<nat>, t: nat): (i: nat)
    requires t in s
    ensures i < |s| && s[i] == t
  {
    var i: nat :| i < |s| && s[i] == t;
    i
  }

  function InsertAt(s: seq<nat>, i: nat, t: nat): (r: seq<nat>)
    requires i <= |s|
    ensures |r| == |s| + 1
  {
    s[..i] + [t] + s[i..]
  }

  function DropAt(s: seq<nat>, k: nat): seq<nat>
    requires k < |s|
  {
    s[..k] + s[k + 1..]
  }

  ghost function Without(s: seq<nat>, t: nat): (r: seq<nat>)
    ensures t !in s ==> r == s
  {
    if t in s then DropAt(s, IndexOf(s, t)) else s
  }

  lemma InsertMembers(s: seq<nat>, i: nat, t: nat)
    requires i <= |s|
    ensures forall x :: x in InsertAt(s, i, t) <==> x in s || x == t
  {
    assert forall x :: x in s <==> x in s[..i] || x in s[i..] by { assert s == s[..i] + s[i..]; }
  }

  lemma InsertIndex(s: seq<nat>, i: nat, t: nat)
    requires i <= |s|
    ensures var r := InsertAt(s, i, t);
            r[i] == t && (forall k :: 0 <= k < i ==> r[k] == s[k]) && (forall k :: i <= k < |s| ==> r[k + 1] == s[k])
  {}

  lemma InsertNoDup(s: seq<nat>, i: nat, t: nat)
    requires NoDup(s) && i <= |s| && t !in s
    ensures NoDup(InsertAt(s, i, t))
  {}

  lemma WithoutMembers(s: seq<nat>, t: nat)
    ensures forall x :: x in Without(s, t) ==> x in s
    ensures forall x :: x in s && x != t ==> x in Without(s, t)
  {
    if t in s {
      var k := IndexOf(s, t);
      assert s == s[..k] + [t] + s[k + 1..];
    }
  }

  lemma WithoutNoDup(s: seq<nat>, t: nat)
    requires NoDup(s)
    ensures NoDup(Without(s, t)) && t !in Without(s, t)
  {}

  // ----- Rings -----

  /** The i-th stop when following next from the base of queue h; stops 0 and |s|+1 are the base itself. */
  function At(h: Head, s: seq<nat>, i: nat): Addr
    requires i <= |s| + 1
  {
    if i == 0 || i == |s| + 1 then Base(h) else Node(KindOf(h), s[i - 1])
  }

  ghost predicate LinkedAt(m: Mem, h: Head, s: seq<nat>, i: nat)
    requires i <= |s|
  {
    && At(h, s, i) in m.next && m.next[At(h, s, i)] == At(h, s, i + 1)
    && At(h, s, i + 1) in m.prev && m.prev[At(h, s, i + 1)] == At(h, s, i)
  }

  /** The links of queue h form one cycle through exactly the tasks of s, in both directions. */
  ghost predicate Ring(m: Mem, h: Head, s: seq<nat>) {
    NoDup(s) && forall i: nat :: i <= |s| ==> LinkedAt(m, h, s, i)
  }

  /** No task is linked twice through the same kind of link. */
  ghost predicate Apart(q: Queues) {
    forall g, h, t :: g in q && h in q && KindOf(g) == KindOf(h) && t in q[g] && t in q[h] ==> g == h
  }

  ghost predicate Rings(m: Mem, q: Queues) {
    Apart(q) && forall h :: h in q ==> Ring(m, h, q[h])
  }

  /** wlink and tlink of a task point to themselves exactly when the task is in no queue of that kind. */
  ghost predicate SelfLinked(m: Mem, a: Addr) {
    a in m.next && a in m.prev && m.next[a] == a && m.prev[a] == a
  }

  ghost predicate Queued(q: Queues, k: Kind, t: nat) {
    exists h :: h in q && KindOf(h) == k && t in q[h]
  }

  // ----- The two elementary list operations as changes of memory -----

  /** Link node n between b and its successor. */
  function LinkAfter(m: Mem, b: Addr, n: Addr): Mem
    requires b in m.next
  {
    var c := m.next[b];
    Mem(m.next[n := c][b := n], m.prev[n := b][c := n])
  }

  /** Join the neighbours of node n; n itself keeps its stale links. */
  function Unlink(m: Mem, n: Addr): Mem
    requires n in m.next && n in m.prev
  {
    Mem(m.next[m.prev[n] := m.next[n]], m.prev[m.next[n] := m.prev[n]])
  }

  function PointToSelf(m: Mem, n: Addr): Mem {
    Mem(m.next[n := n], m.prev[n := n])
  }

  lemma StopsDistinct(h: Head, s: seq<nat>, i: nat, j: nat)
    requires NoDup(s) && i < j <= |s|
    ensures At(h, s, i) != At(h, s, j)
    ensures At(h, s, i + 1) != At(h, s, j + 1)
  {}

  /** A ring is untouched by writes to links it does not contain. */
  lemma RingFrame(m: Mem, m': Mem, h: Head, s: seq<nat>)
    requires Ring(m, h, s)
    requires forall a :: a in m.next && (a == Base(h) || exists t :: t in s && a == Node(KindOf(h), t))
                  ==> a in m'.next && m'.next[a] == m.next[a]
    requires forall a :: a in m.prev && (a == Base(h) || exists t :: t in s && a == Node(KindOf(h), t))
                  ==> a in m'.prev && m'.prev[a] == m.prev[a]
    ensures Ring(m', h, s)
  {
    forall i: nat | i <= |s| ensures LinkedAt(m', h, s, i) {
      assert LinkedAt(m, h, s, i);
      assert i != 0 ==> s[i - 1] in s;
      assert i != |s| ==> s[i] in s;
    }
  }

  /** Linking an unlinked node after stop i inserts its task at position i. */
  lemma RingInsert(m: Mem, h: Head, s: seq<nat>, i: nat, t: nat)
    requires Ring(m, h, s) && i <= |s| && t !in s
    requires At(h, s, i) in m.next
    ensures Ring(LinkAfter(m, At(h, s, i), Node(KindOf(h), t)), h, InsertAt(s, i, t))
  {
    var b, n := At(h, s, i), Node(KindOf(h), t);
    var m' := LinkAfter(m, b, n);
    var s' := InsertAt(s, i, t);
    assert LinkedAt(m, h, s, i);
    forall j: nat | j <= |s'| ensures LinkedAt(m', h, s', j) {
      if j < i {
        assert LinkedAt(m, h, s, j);
        StopsDistinct(h, s, j, i);
      } else if j > i + 1 {
        assert LinkedAt(m, h, s, j - 1);
        StopsDistinct(h, s, i, j - 1);
      }
    }
  }

  lemma StopsDropped(h: Head, s: seq<nat>, k: nat, j: nat)
    requires k < |s| && j <= |s|
    ensures At(h, DropAt(s, k), j) == At(h, s, if j <= k then j else j + 1)
  {}

  lemma RemoveStop(m: Mem, h: Head, s: seq<nat>, k: nat, j: nat)
    requires Ring(m, h, s) && k < |s| && j <= |s| && j != k && j != k + 1
    ensures At(h, s, k + 1) in m.next && At(h, s, k + 1) in m.prev
    ensures LinkedAt(Unlink(m, At(h, s, k + 1)), h, s, j)
  {
    assert LinkedAt(m, h, s, k) && LinkedAt(m, h, s, k + 1) && LinkedAt(m, h, s, j);
    StopsDistinct(h, s, if j < k then j else k, if j < k then k else j);
    StopsDistinct(h, s, if j < k + 1 then j else k + 1, if j < k + 1 then k + 1 else j);
  }

  /** Unlinking the node at position k removes it from its queue and nothing else. */
  lemma RingRemove(m: Mem, h: Head, s: seq<nat>, k: nat)
    requires Ring(m, h, s) && k < |s|
    ensures var n := Node(KindOf(h), s[k]); n in m.next && n in m.prev && Ring(Unlink(m, n), h, DropAt(s, k))
  {
    assert LinkedAt(m, h, s, k) && LinkedAt(m, h, s, k + 1);
    var m', s' := Unlink(m, At(h, s, k + 1)), DropAt(s, k);
    forall j: nat | j <= |s'| ensures LinkedAt(m', h, s', j) {
      StopsDropped(h, s, k, j);
      StopsDropped(h, s, k, j + 1);
      if j != k {
        RemoveStop(m, h, s, k, if j < k then j else j + 1);
      }
    }
  }

  // ----- The same for all queues together -----

  lemma InsertKeepsRings(m: Mem, q: Queues, h: Head, i: nat, t: nat)
    requires Rings(m, q) && h in q && i <= |q[h]| && !Queued(q, KindOf(h), t)
    ensures At(h, q[h], i) in m.next
    ensures Rings(LinkAfter(m, At(h, q[h], i), Node(KindOf(h), t)), q[h := InsertAt(q[h], i, t)])
  {
    var s, n := q[h], Node(KindOf(h), t);
    assert Ring(m, h, s) && LinkedAt(m, h, s, i);
    var m', q' := LinkAfter(m, At(h, s, i), n), q[h := InsertAt(s, i, t)];
    forall g | g in q' ensures Ring(m', g, q'[g]) {
      if g == h {
        RingInsert(m, h, s, i, t);
      } else {
        assert i != 0 ==> s[i - 1] in s;
        assert i != |s| ==> s[i] in s;
        RingFrame(m, m', g, q[g]);
      }
    }
  }

  lemma RemoveKeepsRings(m: Mem, q: Queues, h: Head, t: nat)
    requires Rings(m, q) && h in q && t in q[h]
    ensures var n := Node(KindOf(h), t);
            n in m.next && n in m.prev && Rings(Unlink(m, n), q[h := Without(q[h], t)])
  {
    var s, n, k := q[h], Node(KindOf(h), t), IndexOf(q[h], t);
    assert Ring(m, h, s) && LinkedAt(m, h, s, k) && LinkedAt(m, h, s, k + 1);
    assert At(h, s, k + 1) == n;
    var m', q' := Unlink(m, n), q[h := DropAt(s, k)];
    assert k != 0 ==> s[k - 1] in s;
    assert k + 1 != |s| ==> s[k + 1] in s;
    forall g | g in q' ensures Ring(m', g, q'[g]) {
      if g == h {
        RingRemove(m, h, s, k);
      } else {
        RingFrame(m, m', g, q[g]);
      }
    }
  }

  lemma SelfLinkKeepsRings(m: Mem, q: Queues, k: Kind, t: nat)
    requires Rings(m, q) && !Queued(q, k, t)
    ensures Rings(PointToSelf(m, Node(k, t)), q)
  {
    forall g | g in q ensures Ring(PointToSelf(m, Node(k, t)), g, q[g]) {
      RingFrame(m, PointToSelf(m, Node(k, t)), g, q[g]);
    }
  }

  /** A queued node never points to itself, so the test x.next == &x tells membership. */
  lemma QueuedIsNotSelfLinked(m: Mem, q: Queues, h: Head, t: nat)
    requires Rings(m, q) && h in q && t in q[h]
    ensures Node(KindOf(h), t) in m.next && m.next[Node(KindOf(h), t)] != Node(KindOf(h), t)
  {
    var k := IndexOf(q[h], t);
    assert Ring(m, h, q[h]) && LinkedAt(m, h, q[h], k + 1);
    if k + 1 < |q[h]| {
      assert q[h][k] != q[h][k + 1];
    }
  }
}
