/** The kernel with its pointers: prev/next fields rewired link by link, as the C code does it, refining KernelState. */
module KernelHeap {
  import opened Links
  import opened Timeouts
  import opened KernelState
  import opened KernelInvariant
  import opened KernelSteps
  import opened KernelMutex
  import opened KernelTick
  import opened KernelRuns

  const E_PAR: int := -17

  // ----- The link memory represents the queues -----

  /** Every link of every task exists, and a wlink or tlink that is in no queue points to itself. */
  ghost predicate NodesOk(m: Mem, q: Queues) {
    && (forall k, t {:trigger Node(k, t)} :: IsTask(t) ==> Node(k, t) in m.next && Node(k, t) in m.prev)
    && (forall k, t {:trigger Queued(q, k, t)} :: IsTask(t) && k != P && !Queued(q, k, t) ==> SelfLinked(m, Node(k, t)))
  }

  ghost predicate Represents(m: Mem, q: Queues) {
    Heads(q) && Rings(m, q) && NodesOk(m, q)
  }

  lemma BaseInMem(m: Mem, q: Queues, h: Head)
    requires Represents(m, q) && ValidHead(h)
    ensures Base(h) in m.next && Base(h) in m.prev
  {
    assert Ring(m, h, q[h]);
    assert LinkedAt(m, h, q[h], 0) && LinkedAt(m, h, q[h], |q[h]|);
  }

  lemma NodeInMem(m: Mem, q: Queues, k: Kind, t: nat)
    requires Represents(m, q) && IsTask(t)
    ensures Node(k, t) in m.next && Node(k, t) in m.prev
  {}

  lemma InsertShape(k: KState, h: Head, i: nat, t: nat)
    requires Shape(k) && ValidHead(h) && i <= |k.q[h]| && IsTask(t)
    ensures h in k.q && Shape(Enqueue(k, h, i, t)) && Enqueue(k, h, i, t) == k.(q := k.q[h := InsertAt(k.q[h], i, t)])
  {}

  lemma RemoveShape(k: KState, h: Head, t: nat)
    requires Shape(k) && ValidHead(h)
    ensures h in k.q && Shape(Dequeue(k, h, t)) && Dequeue(k, h, t) == k.(q := k.q[h := Without(k.q[h], t)])
  {}

  /** What following next and prev from stop i finds. */
  lemma Follow(m: Mem, q: Queues, h: Head, i: nat)
    requires Represents(m, q) && ValidHead(h) && i <= |q[h]|
    ensures At(h, q[h], i) in m.next && m.next[At(h, q[h], i)] == At(h, q[h], i + 1)
    ensures At(h, q[h], i + 1) in m.prev && m.prev[At(h, q[h], i + 1)] == At(h, q[h], i)
  {
    assert Ring(m, h, q[h]);
    assert LinkedAt(m, h, q[h], i);
  }

  lemma QueuedElsewhere(q: Queues, h: Head, s: seq<nat>, k: Kind, u: nat)
    requires h in q && (KindOf(h) == k ==> (u in s <==> u in q[h]))
    ensures Queued(q[h := s], k, u) <==> Queued(q, k, u)
  {
    hide NoDup, IndexOf;
    var q' := q[h := s];
    if Queued(q, k, u) {
      var g :| g in q && KindOf(g) == k && u in q[g];
      assert g in q' && u in q'[g];
    }
    if Queued(q', k, u) {
      var g :| g in q' && KindOf(g) == k && u in q'[g];
      assert g in q && u in q[g];
    }
  }

  lemma InsertRepresents(m: Mem, q: Queues, h: Head, i: nat, t: nat)
    requires Represents(m, q) && ValidHead(h) && i <= |q[h]| && IsTask(t) && !Queued(q, KindOf(h), t)
    ensures At(h, q[h], i) in m.next
    ensures Represents(LinkAfter(m, At(h, q[h], i), Node(KindOf(h), t)), q[h := InsertAt(q[h], i, t)])
  {
    hide NoDup, Ring, Rings, Queued, InsertAt;
    InsertKeepsRings(m, q, h, i, t);
    var m', q' := LinkAfter(m, At(h, q[h], i), Node(KindOf(h), t)), q[h := InsertAt(q[h], i, t)];
    InsertNodes(m, q, h, i, t);
  }

  lemma InsertNodes(m: Mem, q: Queues, h: Head, i: nat, t: nat)
    requires Represents(m, q) && ValidHead(h) && i <= |q[h]| && IsTask(t) && !Queued(q, KindOf(h), t)
    requires At(h, q[h], i) in m.next
    ensures NodesOk(LinkAfter(m, At(h, q[h], i), Node(KindOf(h), t)), q[h := InsertAt(q[h], i, t)])
  {
    hide NoDup, Ring, Rings, InsertAt;
    Follow(m, q, h, i);
    var m', q' := LinkAfter(m, At(h, q[h], i), Node(KindOf(h), t)), q[h := InsertAt(q[h], i, t)];
    InsertMembers(q[h], i, t);
    forall k, u | IsTask(u) && k != P && !Queued(q', k, u) ensures SelfLinked(m', Node(k, u)) {
      QueuedHere(q, h, k, u);
      QueuedHere(q', h, k, u);
      assert !Queued(q, k, u) && !(k == KindOf(h) && u == t);
      StopIsQueued(q, h, i, k, u);
      StopIsQueued(q, h, i + 1, k, u);
    }
  }

  lemma QueuedHere(q: Queues, h: Head, k: Kind, u: nat)
    requires h in q
    ensures k == KindOf(h) && u in q[h] ==> Queued(q, k, u)
    ensures Queued(q, k, u) ==> exists g :: g in q && KindOf(g) == k && u in q[g]
  {}

  /** The stops of a queue are its base and nodes of tasks queued in it. */
  lemma StopIsQueued(q: Queues, h: Head, i: nat, k: Kind, u: nat)
    requires h in q && i <= |q[h]| + 1
    ensures At(h, q[h], i) == Node(k, u) ==> Queued(q, k, u)
  {}

  /** Unlinking a task from a ready queue; its plink keeps stale pointers. */
  lemma RemoveReadyRepresents(m: Mem, q: Queues, p: nat, t: nat)
    requires Represents(m, q) && ValidHead(Ready(p)) && IsTask(t) && t in q[Ready(p)]
    ensures Represents(Unlink(m, Node(P, t)), q[Ready(p) := Without(q[Ready(p)], t)])
  {
    hide NoDup, Ring, Rings, Queued, Without;
    RemoveKeepsRings(m, q, Ready(p), t);
    RemoveNodes(m, q, Ready(p), t);
  }

  /** Unlinking a wlink or tlink and pointing it to itself. */
  lemma RemoveSelfRepresents(m: Mem, q: Queues, h: Head, t: nat)
    requires Represents(m, q) && ValidHead(h) && KindOf(h) != P && IsTask(t) && t in q[h]
    ensures var n := Node(KindOf(h), t);
            Represents(PointToSelf(Unlink(m, n), n), q[h := Without(q[h], t)])
  {
    hide NoDup, Ring, Rings, Queued, Without;
    var n := Node(KindOf(h), t);
    var q' := q[h := Without(q[h], t)];
    RemoveKeepsRings(m, q, h, t);
    RemoveNodes(m, q, h, t);
    RemovedIsUnqueued(q, h, t, m);
    SelfLinkKeepsRings(Unlink(m, n), q', KindOf(h), t);
  }

  lemma RemovedIsUnqueued(q: Queues, h: Head, t: nat, m: Mem)
    requires Rings(m, q) && h in q && t in q[h]
    ensures !Queued(q[h := Without(q[h], t)], KindOf(h), t)
  {
    assert Ring(m, h, q[h]);
    WithoutNoDup(q[h], t);
  }

  /** After unlinking, every node but the removed one is as NodesOk wants it. */
  lemma RemoveNodes(m: Mem, q: Queues, h: Head, t: nat)
    requires Represents(m, q) && ValidHead(h) && IsTask(t) && t in q[h]
    ensures var n := Node(KindOf(h), t);
            var m', q' := Unlink(m, n), q[h := Without(q[h], t)];
            && (forall k, u {:trigger Node(k, u)} :: IsTask(u) ==> Node(k, u) in m'.next && Node(k, u) in m'.prev)
            && (forall k, u {:trigger Queued(q', k, u)} ::
                  IsTask(u) && k != P && !Queued(q', k, u) && Node(k, u) != n ==> SelfLinked(m', Node(k, u)))
  {
    hide NoDup, Ring, Rings, Without;
    var n := Node(KindOf(h), t);
    var m', q' := Unlink(m, n), q[h := Without(q[h], t)];
    var i := IndexOf(q[h], t);
    Follow(m, q, h, i);
    Follow(m, q, h, i + 1);
    WithoutMembers(q[h], t);
    forall k, u | IsTask(u) && k != P && !Queued(q', k, u) && Node(k, u) != n ensures SelfLinked(m', Node(k, u)) {
      QueuedHere(q, h, k, u);
      QueuedHere(q', h, k, u);
      assert !Queued(q, k, u);
      StopIsQueued(q, h, i, k, u);
      StopIsQueued(q, h, i + 2, k, u);
    }
  }

  lemma WhichQueue(q: Queues, k: Kind, t: nat) returns (h: Head)
    requires Queued(q, k, t)
    ensures h in q && KindOf(h) == k && t in q[h]
  {
    h :| h in q && KindOf(h) == k && t in q[h];
  }

  /** Removing t from all object queues is removing it from the one it is in. */
  lemma RemoveWaitsFromOne(q: Queues, h: Head, t: nat)
    requires Apart(q) && h in q && KindOf(h) == W && t in q[h]
    ensures RemoveWaits(q, t) == q[h := Without(q[h], t)]
  {
    hide IndexOf, DropAt;
    forall g | g in q ensures RemoveWaits(q, t)[g] == q[h := Without(q[h], t)][g] {
      if g != h && KindOf(g) == W { assert t !in q[g]; }
    }
  }

  lemma RepresentsApart(m: Mem, q: Queues)
    requires Represents(m, q)
    ensures Apart(q)
  {}

  lemma RemoveWaitsFromNone(q: Queues, t: nat)
    requires !Queued(q, W, t)
    ensures RemoveWaits(q, t) == q
  {
    forall g | g in q ensures RemoveWaits(q, t)[g] == q[g] {
      if KindOf(g) == W { assert t !in q[g]; }
    }
  }

  /** The test x.next == &x tells whether a wlink or tlink is queued. */
  lemma SelfLinkedIffUnqueued(m: Mem, q: Queues, k: Kind, t: nat)
    requires Represents(m, q) && IsTask(t) && k != P
    ensures Node(k, t) in m.next && (m.next[Node(k, t)] == Node(k, t) <==> !Queued(q, k, t))
  {
    assert Node(k, t) in m.next;
    if Queued(q, k, t) {
      var h := WhichQueue(q, k, t);
      QueuedIsNotSelfLinked(m, q, h, t);
    } else {
      assert SelfLinked(m, Node(k, t));
    }
  }

  lemma RemoveWaitsShape(k: KState, t: nat)
    requires Shape(k)
    ensures Shape(k.(q := RemoveWaits(k.q, t)))
  {}

  lemma TimeoutRemIs(k: KState, t: nat)
    requires Shape(k) && t in k.q[Tmo]
    ensures InRange(k.q[Tmo], k.delta)
    ensures TimeoutRemIfExist(k, t)
         == k.(q := k.q[Tmo := Without(k.q[Tmo], t)], delta := Carried(k.q[Tmo], k.delta, IndexOf(k.q[Tmo], t)))
  {
    hide Without, Carried;
  }

  lemma RemoveWaitsReady(q: Queues, t: nat)
    requires !Queued(q, P, t)
    ensures !Queued(RemoveWaits(q, t), P, t)
  {
    hide Without;
    var r := RemoveWaits(q, t);
    forall h | h in r && KindOf(h) == P ensures t !in r[h] {
      assert t !in q[h];
    }
  }

  /** One step of the walk to the insertion point: it stops at stop i, or goes on with what is left of the timeout. */
  lemma PositionNext(s: seq<nat>, d: seq<nat>, t: nat, y: nat, i: nat)
    requires i <= |s| && InRange(s, d) && t < |d|
    ensures i < |s| && d[s[i]] < y ==> Position(s, d, y, i) == Position(s, d, y - d[s[i]], i + 1)
    ensures (i < |s| ==> d[s[i]] >= y) ==>
              forall x :: Position(s, d, x, 0) == Position(s, d, y, i) ==>
                Position(s, d, x, 0).0 == i
                && Inserted(s, d, t, x).1 == if i < |s| then d[s[i] := d[s[i]] - y][t := y] else d[t := y]
  {
    hide InsertAt;
  }

  /** The insertion point does not depend on the delta of the entry being inserted. */
  lemma PositionIgnores(s: seq<nat>, d: seq<nat>, t: nat, y: nat, x: nat, i: nat)
    requires i <= |s| && InRange(s, d) && t < |d| && t !in s
    ensures InRange(s, d[t := y]) && Position(s, d[t := y], x, i) == Position(s, d, x, i)
    decreases |s| - i
  {
    if i < |s| && d[s[i]] < x { PositionIgnores(s, d, t, y, x - d[s[i]], i + 1); }
  }

  lemma InsertedIgnores(s: seq<nat>, d: seq<nat>, t: nat, y: nat, x: nat)
    requires InRange(s, d) && t < |d| && t !in s
    ensures Inserted(s, d[t := y], t, x) == Inserted(s, d, t, x)
  {
    PositionIgnores(s, d, t, y, x, 0);
    var (i, rest) := Position(s, d, x, 0);
    assert d[t := y][t := rest] == d[t := rest];
    if i < |s| { assert d[t := y][s[i] := d[s[i]] - rest][t := rest] == d[s[i] := d[s[i]] - rest][t := rest]; }
  }

  lemma TimeoutQueue(q: Queues, t: nat)
    requires Heads(q)
    ensures Queued(q, T, t) <==> t in q[Tmo]
  {
    assert ValidHead(Tmo);
  }

  lemma HeadStop(m: Mem, q: Queues, h: Head)
    requires Represents(m, q) && ValidHead(h)
    ensures Base(h) in m.next && m.next[Base(h)] == (if q[h] == [] then Base(h) else Node(KindOf(h), q[h][0]))
  {
    Follow(m, q, h, 0);
  }

  lemma PopRepresents(m: Mem, q: Queues)
    requires Represents(m, q) && AllIds(q) && ValidHead(Tmo) && q[Tmo] != []
    ensures var n := Node(T, q[Tmo][0]);
            n in m.next && n in m.prev && Represents(PointToSelf(Unlink(m, n), n), q[Tmo := q[Tmo][1..]])
  {
    hide Ring, NodesOk, Without, DropAt, IndexOf;
    assert q[Tmo][0] in q[Tmo];
    RemoveSelfRepresents(m, q, Tmo, q[Tmo][0]);
    RingNoDup(m, q, Tmo);
    TailIsWithout(q[Tmo]);
    Follow(m, q, Tmo, 0);
    Follow(m, q, Tmo, 1);
  }

  lemma RingNoDup(m: Mem, q: Queues, h: Head)
    requires Rings(m, q) && h in q
    ensures NoDup(q[h])
  {
    assert Ring(m, h, q[h]);
  }

  /** One round of the expiry loop keeps what the next round needs. */
  lemma ExpireKeeps(k: KState)
    requires BaseInv(k) && OwnOk(k.tsk, k.mtx) && InRange(k.q[Tmo], k.delta) && k.q[Tmo] != []
    ensures var r := Expire(k);
            && BaseInv(r) && OwnOk(r.tsk, r.mtx) && InRange(r.q[Tmo], r.delta)
            && k.tsk[k.q[Tmo][0]].stat == WAI && !Queued(k.q, P, k.q[Tmo][0])
  {
    hide LinksOk, SemOk, MtxOk, OwnOk, CpuOk, IdleOk, Expire, InsertAt, Without, NoDup;
    ExpireIsRelease(k);
    ReleaseKeepsBase(k, k.q[Tmo][0], Expire(k));
    ReleaseKeepsOwn(k, k.q[Tmo][0], Expire(k));
    InactiveIsUnlinked(k, k.q[Tmo][0]);
  }

  /** The decrement of the head delta, and what the expiry loop starts from. */
  lemma StartTick(k: KState)
    requires Inv(k)
    ensures Shape(k) && var r := k.(delta := Ticked(k.q[Tmo], k.delta));
            && Shape(r) && BaseInv(r) && OwnOk(r.tsk, r.mtx) && InRange(r.q[Tmo], r.delta)
            && Tick(k) == ExpireLoop(r, false) && (k.q[Tmo] == [] ==> Tick(k) == k && r == k)
            && (k.q[Tmo] != [] ==> k.q[Tmo][0] < SLOTS)
  {
    hide LinksOk, SemOk, MtxOk, OwnOk, CpuOk, IdleOk, ReadyOk, WaitOk, NoDup, Remaining, Expire;
  }

  lemma ExpireLoopStep(k: KState, woken: bool)
    requires Shape(k)
    ensures ExpireLoop(k, woken)
         == if k.q[Tmo] == [] || k.delta[k.q[Tmo][0]] != 0 then (if woken then Resched(k) else k)
            else ExpireLoop(Expire(k), woken || k.tsk[k.q[Tmo][0]].stat == WAI)
  {
    hide Expire;
  }

  lemma StillUnlinked(k: KState, t: nat)
    requires Shape(k) && k.q[Tmo] != [] && !Queued(k.q, P, t)
    ensures !Queued(k.q[Tmo := k.q[Tmo][1..]], P, t)
  {}

  /** A ready caller sits in the ready queue of its priority and in no other queue. */
  lemma CallerIsReady(k: KState, c: nat)
    requires Inv(k) && Caller(k, c)
    ensures var t := k.cur[c];
            && IsTask(t) && ValidHead(Ready(k.tsk[t].pri)) && t in k.q[Ready(k.tsk[t].pri)]
            && !Queued(k.q, W, t) && !Queued(k.q, T, t)
  {
    hide LinksOk, SemOk, MtxOk, OwnOk, CpuOk, IdleOk;
    ActiveIsUnlinked(k, k.cur[c]);
  }

  lemma ScanEmpty(tsk: seq<Tcb>, c: nat, s: seq<nat>)
    ensures FirstRunnable(tsk, c, s[|s|..]) == None
  {}

  lemma MemberIsTask(k: KState, h: Head, j: nat)
    requires Shape(k) && ValidHead(h) && j < |k.q[h]|
    ensures IsTask(k.q[h][j])
  {}

  lemma ScanStep(tsk: seq<Tcb>, c: nat, s: seq<nat>, j: nat)
    requires j < |s|
    ensures FirstRunnable(tsk, c, s[j..])
            == if Runnable(tsk, c, s[j]) then Some(s[j]) else FirstRunnable(tsk, c, s[j + 1..])
  {
    assert s[j..][1..] == s[j + 1..];
  }

  lemma HeadWaits(k: KState, h: Head)
    requires Inv(k) && ValidHead(h) && KindOf(h) != P && k.q[h] != []
    ensures IsTask(k.q[h][0]) && k.q[h][0] in k.q[h] && !Queued(k.q, P, k.q[h][0])
  {
    hide LinksOk, SemOk, MtxOk, OwnOk, CpuOk, IdleOk, NoDup;
    QueueHead(k, h);
    InactiveIsUnlinked(k, k.q[h][0]);
  }

  lemma OneWait(k: KState, h: Head, t: nat)
    requires Inv(k) && ValidHead(h) && KindOf(h) == W && t in k.q[h]
    ensures Queued(k.q, W, t) && RemoveWaits(k.q, t) == Dequeue(k, h, t).q
  {
    hide WaitOk, SemOk, MtxOk, OwnOk, CpuOk, IdleOk, NoDup, ReadyOk;
    RemoveWaitsFromOne(k.q, h, t);
  }

  lemma TimeoutInsIgnores(k: KState, t: nat, x: nat)
    requires Shape(k) && IsTask(t) && x < UINT_MOD && t !in k.q[Tmo]
    ensures var k1 := k.(delta := k.delta[t := x]); Shape(k1) && TimeoutIns(k1, t, x) == TimeoutIns(k, t, x)
  {
    InsertedIgnores(k.q[Tmo], k.delta, t, x, x);
  }

  lemma TimeoutInsShape(k: KState, t: nat)
    requires Shape(k) && IsTask(t)
    ensures var (s, d) := Inserted(k.q[Tmo], k.delta, t, k.delta[t]);
            && Shape(k.(delta := d)) && s == InsertAt(k.q[Tmo], Position(k.q[Tmo], k.delta, k.delta[t], 0).0, t)
  {
    InsertedDeltas(k.q[Tmo], k.delta, t, k.delta[t]);
  }

  lemma InsertedDeltas(s: seq<nat>, d: seq<nat>, t: nat, x: nat)
    requires InRange(s, d) && t < |d| && x < UINT_MOD && forall i :: 0 <= i < |d| ==> d[i] < UINT_MOD
    ensures forall i :: 0 <= i < |d| ==> Inserted(s, d, t, x).1[i] < UINT_MOD
  {}

  lemma UnqueuedAfterDequeue(k: KState, h: Head, t: nat, kd: Kind)
    requires Shape(k) && ValidHead(h) && KindOf(h) != kd
    ensures Queued(Dequeue(k, h, t).q, kd, t) <==> Queued(k.q, kd, t)
  {
    QueuedElsewhere(k.q, h, Without(k.q[h], t), kd, t);
  }

  lemma UnqueuedAfterEnqueue(k: KState, h: Head, i: nat, u: nat, t: nat, kd: Kind)
    requires Shape(k) && ValidHead(h) && i <= |k.q[h]| && IsTask(u) && KindOf(h) != kd
    ensures Queued(Enqueue(k, h, i, u).q, kd, t) <==> Queued(k.q, kd, t)
  {
    QueuedElsewhere(k.q, h, InsertAt(k.q[h], i, u), kd, t);
  }

  lemma UnqueuedAfterTimeoutRem(k: KState, t: nat, kd: Kind)
    requires Shape(k) && kd != T
    ensures Queued(TimeoutRemIfExist(k, t).q, kd, t) <==> Queued(k.q, kd, t)
  {
    if t in k.q[Tmo] { QueuedElsewhere(k.q, Tmo, Removed(k.q[Tmo], k.delta, t).0, kd, t); }
  }

  /** A ready owner of a locked mutex sits in the ready queue of its priority. */
  lemma OwnerIsReady(k: KState, m: nat)
    requires Inv(k) && 1 <= m < SLOTS && k.mtx[m].lock && Active(k.tsk[k.mtx[m].owner])
    ensures var o := k.mtx[m].owner; IsTask(o) && ValidHead(Ready(k.tsk[o].pri)) && o in k.q[Ready(k.tsk[o].pri)]
  {
    hide LinksOk, WaitOk, SemOk, MtxOk, OwnOk, CpuOk, IdleOk, NoDup;
  }

  /** The owner that lock waiting would boost is ready: only then is its plink in a queue to unlink it from. */
  ghost predicate BoostsReady(k: KState, c: nat, m: nat, tmout: nat)
    requires Shape(k) && c < 2
  {
    MtxBlocks(k, c, m, tmout) && Boosts(k, m, k.cur[c]) ==> Active(k.tsk[k.mtx[m].owner])
  }

  lemma UnqueuedAfterBoost(k: KState, o: nat, p: Pri, t: nat)
    requires Shape(k) && IsTask(o) && !Queued(k.q, T, t)
    ensures !Queued(Reprioritize(k, o, p).q, T, t)
  {
    hide InsertAt, Without;
    ReprioritizeEffect(k, o, p);
  }

  /** With t queued for mutex m, an owner to be boosted is in its ready queue, and so is t, before and after the boost.
      */
  lemma WaiterJoins(k: KState, m: nat, t: nat)
    requires Inv(k) && 1 <= m < SLOTS && k.mtx[m].lock && k.mtx[m].owner != t && IsTask(t)
    requires Boosts(k, m, t) ==> Active(k.tsk[k.mtx[m].owner])
    requires ValidHead(Ready(k.tsk[t].pri)) && t in k.q[Ready(k.tsk[t].pri)]
    requires !Queued(k.q, W, t) && !Queued(k.q, T, t)
    ensures var k1, o := Enqueue(k, MtxQ(m), MtxPlace(k, m, t), t), k.mtx[m].owner;
            && LinksOk(k1.q) && k1.mtx == k.mtx && k1.tsk == k.tsk
            && (Boosts(k, m, t) ==> o in k1.q[Ready(k1.tsk[o].pri)])
            && var r := Boost(k1, m, t);
               && r.cur == k.cur && r.tsk[t] == k.tsk[t]
               && t in r.q[Ready(r.tsk[t].pri)] && !Queued(r.q, T, t)
  {
    hide ReadyOk, LinksOk, SemOk, MtxOk, OwnOk, CpuOk, IdleOk, WaitOk, WellFormed, Queued, AllIds, InsertAt,
      Reprioritize, MtxPlace;
    var i, o := MtxPlace(k, m, t), k.mtx[m].owner;
    var k1 := Enqueue(k, MtxQ(m), i, t);
    EnqueueKeepsLinks(k, MtxQ(m), i, t);
    UnqueuedAfterEnqueue(k, MtxQ(m), i, t, t, T);
    if Boosts(k, m, t) {
      OwnerIsReady(k, m);
      StillReady(k1, o, k.tsk[t].pri, t);
      UnqueuedAfterBoost(k1, o, k.tsk[t].pri, t);
      ReprioritizeEffect(k1, o, k.tsk[t].pri);
    }
  }

  lemma OwnerIsTask(k: KState, m: nat)
    requires Shape(k) && 1 <= m < SLOTS && k.mtx[m].lock
    ensures IsTask(k.mtx[m].owner)
  {}

  /** Passing a mutex on changes two queues: the first waiter leaves that of the mutex and joins its ready queue. */
  lemma PassQueues(k: KState, m: nat)
    requires Shape(k) && 1 <= m < SLOTS && k.q[MtxQ(m)] != []
    ensures var n := k.q[MtxQ(m)][0];
            var h := Ready(k.tsk[n].pri);
            var q1 := k.q[MtxQ(m) := Without(k.q[MtxQ(m)], n)];
            && IsTask(n) && ValidHead(h) && h in q1 && q1[h] == k.q[h]
            && PassMtx(k, m).q == q1[h := InsertAt(q1[h], |q1[h]|, n)]
  {
    hide InsertAt, Without;
    HeadIsTask(k, MtxQ(m));
    assert ValidHead(Ready(k.tsk[k.q[MtxQ(m)][0]].pri));
  }

  lemma PassTsk(k: KState, m: nat, t: nat)
    requires Shape(k) && 1 <= m < SLOTS && IsTask(t) && Active(k.tsk[t])
    ensures var r := PassMtx(k, m); Active(r.tsk[t]) && r.cur == k.cur && r.tsk[t].pri == k.tsk[t].pri
  {
    hide InsertAt, Without, Dequeue, SchedIns;
    if k.q[MtxQ(m)] != [] {
      HeadIsTask(k, MtxQ(m));
      var n := k.q[MtxQ(m)][0];
      var k1 := Inc(k.(mtx := k.mtx[m := k.mtx[m].(lock := true, owner := n)]), n);
      DequeueEffect(k1, MtxQ(m), n);
      SchedInsEffect(SetEax(SetStat(Dequeue(k1, MtxQ(m), n), n, RDY), n, E_OK), n);
    }
  }

  /** Passing a mutex on keeps the queues apart and every ready task where it is. */
  lemma PassKeepsReady(k: KState, m: nat, t: nat)
    requires Inv(k) && 1 <= m < SLOTS && IsTask(t) && Active(k.tsk[t])
    ensures var r := PassMtx(k, m);
            && LinksOk(r.q) && Active(r.tsk[t]) && r.cur == k.cur
            && ValidHead(Ready(r.tsk[t].pri)) && t in r.q[Ready(r.tsk[t].pri)]
  {
    hide SemOk, MtxOk, OwnOk, CpuOk, IdleOk, WellFormed, InsertAt, Without, LinksOk, PassMtx, Queued, AllIds;
    PassTsk(k, m, t);
    if k.q[MtxQ(m)] != [] {
      var n := k.q[MtxQ(m)][0];
      QueueHead(k, MtxQ(m));
      var h := Ready(k.tsk[n].pri);
      InactiveIsUnlinked(k, n);
      PassQueues(k, m);
      var q1 := k.q[MtxQ(m) := Without(k.q[MtxQ(m)], n)];
      LinksRemove(k.q, MtxQ(m), n);
      QueuedElsewhere(k.q, MtxQ(m), q1[MtxQ(m)], P, n);
      LinksInsert(q1, h, |q1[h]|, n);
      InsertMembers(q1[h], |q1[h]|, n);
    } else {
      PassNobody(k, m);
    }
  }

  lemma PassNobody(k: KState, m: nat)
    requires Shape(k) && 1 <= m < SLOTS && k.q[MtxQ(m)] == []
    ensures PassMtx(k, m).q == k.q
  {}

  lemma DequeuedReady(k: KState, p: nat, t: nat)
    requires Shape(k) && LinksOk(k.q) && ValidHead(Ready(p)) && t in k.q[Ready(p)]
    ensures !Queued(Dequeue(k, Ready(p), t).q, P, t)
  {
    hide NoDup, Without;
    WithoutNoDup(k.q[Ready(p)], t);
  }

  lemma EnqueueKeepsLinks(k: KState, h: Head, i: nat, t: nat)
    requires Shape(k) && LinksOk(k.q) && ValidHead(h) && i <= |k.q[h]| && IsTask(t) && !Queued(k.q, KindOf(h), t)
    ensures LinksOk(Enqueue(k, h, i, t).q)
  {
    LinksInsert(k.q, h, i, t);
  }

  lemma StillReady(k: KState, o: nat, p: Pri, t: nat)
    requires Shape(k) && IsTask(o) && IsTask(t) && o != t && t in k.q[Ready(k.tsk[t].pri)]
    ensures var r := Reprioritize(k, o, p); r.tsk[t] == k.tsk[t] && t in r.q[Ready(r.tsk[t].pri)]
  {
    hide NoDup, Without, InsertAt;
    ReprioritizeEffect(k, o, p);
    var s := k.q[Ready(k.tsk[t].pri)];
    WithoutMembers(s, o);
    InsertMembers(s, |s|, o);
    InsertMembers(Without(s, o), |Without(s, o)|, o);
  }

  lemma CallerLocal(k: KState, c: nat)
    requires Inv(k) && Caller(k, c)
    ensures Shape(k) && IsTask(k.cur[c])
    ensures k.cur[c] in k.q[Ready(k.tsk[k.cur[c]].pri)] && !Queued(k.q, T, k.cur[c])
  {
    CallerIsReady(k, c);
  }

  lemma CallParts(k: KState, c: nat, call: Call)
    requires Inv(k) && Enabled(k, Syscall(c, call))
    ensures WellTyped(c, call) && Caller(k, c) && IsTask(k.cur[c])
    ensures call.Loc? ==> BoostsReady(k, c, call.m, call.tmout)
    ensures Shape(Exec(k, c, call).0)
  {
    hide Inv, Exec;
    ExecKeepsInv(k, c, call);
    InvIsShape(Exec(k, c, call).0);
  }

  lemma DormantIsUnlinked(k: KState, t: nat)
    requires Inv(k) && IsTask(t)
    ensures k.tsk[t].stat == DMT ==> !Queued(k.q, P, t)
  {
    hide LinksOk, SemOk, MtxOk, OwnOk, CpuOk, IdleOk;
    if k.tsk[t].stat == DMT { InactiveIsUnlinked(k, t); }
  }

  // ----- Start-up -----

  ghost function EmptyQueues(): Queues { map h | h in AllHeads() :: [] }

  /** With tsk_init done, all queues are empty exactly when every base points to itself: a mutex that mtx_init has not
      reached has no queue. */
  lemma EmptyIff(m: Mem)
    requires forall k, t {:trigger Node(k, t)} :: IsTask(t) && k != P ==> SelfLinked(m, Node(k, t))
    requires forall k, t {:trigger Node(k, t)} :: IsTask(t) ==> Node(k, t) in m.next && Node(k, t) in m.prev
    ensures Represents(m, EmptyQueues()) <==> forall h :: ValidHead(h) ==> SelfLinked(m, Base(h))
  {
    var q := EmptyQueues();
    if forall h :: ValidHead(h) ==> SelfLinked(m, Base(h)) {
      forall h | h in q ensures Ring(m, h, q[h]) {
        assert LinkedAt(m, h, q[h], 0);
      }
    } else if Represents(m, q) {
      forall h | ValidHead(h) ensures SelfLinked(m, Base(h)) {
        assert Ring(m, h, q[h]);
        assert LinkedAt(m, h, q[h], 0);
      }
    }
  }

  ghost function Blank(): KState {
    KState(seq(SLOTS, _ => Tcb(NON, 1, 1, 0, 0, 0, 0, 0)), EmptyQueues(), seq(SLOTS, _ => 0),
           seq(MAX_ID + 1, _ => Sem(false, 0, 0, 0)), seq(SLOTS, _ => Mtx(false, false, 0, 0, 0)),
           [1, 2], [false, false])
  }

  /** What the zeroed tables look like after the start-up loops. */
  lemma BlankIs(k: KState)
    requires k.q == EmptyQueues() && k.cur == [1, 2] && k.flag == [false, false]
    requires |k.tsk| == SLOTS && forall t :: 0 <= t < SLOTS ==> k.tsk[t] == Tcb(NON, 1, 1, 0, 0, 0, 0, 0)
    requires |k.delta| == SLOTS && forall t :: 0 <= t < SLOTS ==> k.delta[t] == 0
    requires |k.sem| == MAX_ID + 1 && forall s :: 0 <= s <= MAX_ID ==> k.sem[s] == Sem(false, 0, 0, 0)
    requires |k.mtx| == SLOTS && forall m :: 0 <= m < SLOTS ==> k.mtx[m] == Mtx(false, false, 0, 0, 0)
    ensures k == Blank() && Shape(k)
  {
    assert k.tsk == Blank().tsk && k.delta == Blank().delta && k.sem == Blank().sem && k.mtx == Blank().mtx;
  }

  lemma NodesStay(m: Mem, m': Mem, m'': Mem)
    requires NodesKept(m, m') && NodesKept(m', m'')
    requires forall k, t {:trigger Node(k, t)} :: IsTask(t) && k != P ==> SelfLinked(m, Node(k, t))
    requires forall k, t {:trigger Node(k, t)} :: IsTask(t) ==> Node(k, t) in m.next && Node(k, t) in m.prev
    ensures forall k, t {:trigger Node(k, t)} :: IsTask(t) && k != P ==> SelfLinked(m'', Node(k, t))
    ensures forall k, t {:trigger Node(k, t)} :: IsTask(t) ==> Node(k, t) in m''.next && Node(k, t) in m''.prev
  {}

  lemma HeadsSelfLinked(m: Mem)
    requires forall p :: 1 <= p <= TMAX_TPRI ==> SelfLinked(m, Base(Ready(p)))
    requires forall s :: 1 <= s <= MAX_ID ==> SelfLinked(m, Base(SemQ(s)))
    requires forall i :: 1 <= i < SLOTS ==> SelfLinked(m, Base(MtxQ(i)))
    requires SelfLinked(m, Base(Tmo))
    ensures forall h :: ValidHead(h) ==> SelfLinked(m, Base(h))
  {
    hide SelfLinked;
  }

  /** A task of state s added behind the others of its priority. */
  ghost function WithTask(k: KState, t: nat, p: Pri, cpu: nat, s: Stat): KState
    requires t < |k.tsk| && Ready(p) in k.q
  {
    k.(tsk := k.tsk[t := Tcb(s, p, p, 0, 0, 0, cpu, 0)], q := k.q[Ready(p) := k.q[Ready(p)] + [t]])
  }

  lemma BlankTasks()
    ensures |Blank().tsk| == SLOTS && forall t :: 0 <= t < SLOTS ==> Blank().tsk[t].stat == NON
  {}

  lemma BlankHeads()
    ensures forall h :: h in Blank().q <==> ValidHead(h)
    ensures forall t :: !Queued(Blank().q, P, t)
  {}

  lemma WithTaskEffect(k: KState, t: nat, p: Pri, cpu: nat, s: Stat)
    requires Heads(k.q) && |k.tsk| == SLOTS && t < SLOTS
    ensures var r := WithTask(k, t, p, cpu, s);
            && Heads(r.q) && |r.tsk| == SLOTS
            && (forall u :: 0 <= u < SLOTS && u != t ==> r.tsk[u] == k.tsk[u])
            && (forall u :: u != t && !Queued(k.q, P, u) ==> !Queued(r.q, P, u))
  {
    assert ValidHead(Ready(p));
    var r := WithTask(k, t, p, cpu, s);
    forall u | u != t && !Queued(k.q, P, u) ensures !Queued(r.q, P, u) {
      assert u !in k.q[Ready(p)];
    }
  }

  /** The four tasks of proc_init make the start state. */
  lemma BootIs()
    ensures var k1 := WithTask(Blank(), 1, 15, 0, RUN);
            var k2 := WithTask(k1, 2, 15, 1, RUN);
            var k3 := WithTask(k2, IDLE0, 16, 0, RDY);
            Boot() == WithTask(k3, IDLE1, 16, 1, RDY)
  {
    var k1 := WithTask(Blank(), 1, 15, 0, RUN);
    var k2 := WithTask(k1, 2, 15, 1, RUN);
    var k3 := WithTask(k2, IDLE0, 16, 0, RDY);
    var k4 := WithTask(k3, IDLE1, 16, 1, RDY);
    BootTasksAre();
    BootQueuesAre();
    assert k4.tsk == Boot().tsk;
    assert k4.q == Boot().q;
  }

  lemma BootTasksAre()
    ensures Boot().tsk
         == Blank().tsk[1 := BootTask(1)][2 := BootTask(2)][IDLE0 := BootTask(IDLE0)][IDLE1 := BootTask(IDLE1)]
  {
    hide BootQueue;
  }

  lemma BootQueuesAre()
    ensures ValidHead(Ready(15)) && ValidHead(Ready(16))
    ensures var q := EmptyQueues();
            Boot().q == q[Ready(15) := [] + [1]][Ready(15) := [] + [1] + [2]]
                         [Ready(16) := [] + [IDLE0]][Ready(16) := [] + [IDLE0] + [IDLE1]]
  {
    hide BootTask;
    assert [] + [1] + [2] == [1, 2] && [] + [IDLE0] + [IDLE1] == [IDLE0, IDLE1];
  }

  /** No link of a task changes. */
  ghost predicate NodesKept(m: Mem, m': Mem) {
    forall k, t {:trigger Node(k, t)} ::
      (Node(k, t) in m.next ==> Node(k, t) in m'.next && m'.next[Node(k, t)] == m.next[Node(k, t)])
      && (Node(k, t) in m.prev ==> Node(k, t) in m'.prev && m'.prev[Node(k, t)] == m.prev[Node(k, t)])
  }

  lemma AppendIsInsert(s: seq<nat>, t: nat)
    ensures InsertAt(s, |s|, t) == s + [t]
  {}

  /** The links of task t as tsk_init leaves them. */
  ghost predicate LinksSet(m: Mem, t: nat) {
    Node(P, t) in m.next && Node(P, t) in m.prev && SelfLinked(m, Node(W, t)) && SelfLinked(m, Node(T, t))
  }

  // ----- The kernel -----

  class Kernel {
    var next: map<Addr, Addr>
    var prev: map<Addr, Addr>
    var delta: seq<nat>
    var tsk: seq<Tcb>
    var sem: seq<Sem>
    var mtx: seq<Mtx>
    var cur: seq<nat>
    var flag: seq<bool>
    ghost var q: Queues

    ghost function View(): KState
      reads this
    {
      KState(tsk, q, delta, sem, mtx, cur, flag)
    }

    ghost predicate Valid()
      reads this
    {
      Shape(View()) && Represents(Mem(next, prev), q)
    }

    // ----- Start-up -----

    /** itron_init on zeroed tables, with the mutex queues initialised as well (itron_init does not call mtx_init). */
    constructor ()
      ensures Valid() && View() == Blank()
    {
      next := map[];
      prev := map[];
      tsk := seq(SLOTS, _ => Tcb(NON, 1, 1, 0, 0, 0, 0, 0));
      delta := seq(SLOTS, _ => 0);
      sem := seq(MAX_ID + 1, _ => Sem(false, 0, 0, 0));
      mtx := seq(SLOTS, _ => Mtx(false, false, 0, 0, 0));
      cur, flag := [1, 2], [false, false];
      q := EmptyQueues();
      new;
      hide Blank, EmptyQueues, Represents, SelfLinked, NodesKept, Shape;
      ItronInit();
      BlankIs(View());
    }

    method ItronInit()
      requires |tsk| == SLOTS && |sem| == MAX_ID + 1 && |mtx| == SLOTS && q == EmptyQueues()
      modifies `next, `prev, `tsk, `flag, `sem, `mtx
      ensures Represents(Mem(next, prev), q) && flag == [false, false]
      ensures |tsk| == SLOTS && forall t :: 0 <= t < SLOTS ==> tsk[t] == old(tsk)[t].(wupcnt := 0, stat := NON)
      ensures |sem| == MAX_ID + 1 && forall s :: 0 <= s <= MAX_ID ==> sem[s] == old(sem)[s].(act := false)
      ensures |mtx| == SLOTS && forall m :: 1 <= m < SLOTS ==> mtx[m] == old(mtx)[m].(act := false)
      ensures mtx[0] == old(mtx)[0]
    {
      hide Represents, SelfLinked, NodesKept, EmptyQueues;
      TskInit();
      ghost var nodes := Mem(next, prev);
      SchedInit();
      ghost var heads := Mem(next, prev);
      SemInit();
      MtxInit();
      NodesStay(nodes, heads, Mem(next, prev));
      HeadsSelfLinked(Mem(next, prev));
      EmptyIff(Mem(next, prev));
    }

    method SelfLink(a: Addr)
      modifies `next, `prev
      ensures next == old(next)[a := a] && prev == old(prev)[a := a]
    {
      next := next[a := a];
      prev := prev[a := a];
    }

    /** tsk_init; a plink is left as it is, here pointing to the base of the timeout list. */
    method TskInit()
      requires |tsk| == SLOTS
      modifies `next, `prev, `tsk
      ensures forall k, t {:trigger Node(k, t)} :: IsTask(t) ==> Node(k, t) in next && Node(k, t) in prev
      ensures forall k, t {:trigger Node(k, t)} :: IsTask(t) && k != P ==> SelfLinked(Mem(next, prev), Node(k, t))
      ensures |tsk| == SLOTS && forall t :: 0 <= t < SLOTS ==> tsk[t] == old(tsk)[t].(wupcnt := 0, stat := NON)
    {
      var i := 0;
      while i < SLOTS
        invariant i <= SLOTS == |tsk|
        invariant forall t :: 0 <= t < i ==> tsk[t] == old(tsk)[t].(wupcnt := 0, stat := NON)
        invariant forall t :: i <= t < SLOTS ==> tsk[t] == old(tsk)[t]
        invariant forall t :: 0 <= t < i ==> LinksSet(Mem(next, prev), t)
      {
        tsk := tsk[i := tsk[i].(wupcnt := 0, stat := NON)];
        InitLinks(i);
        i := i + 1;
      }
      forall k, t | IsTask(t)
        ensures Node(k, t) in next && Node(k, t) in prev && (k != P ==> SelfLinked(Mem(next, prev), Node(k, t)))
      {
        assert LinksSet(Mem(next, prev), t);
        assert k == P || k == W || k == T;
      }
    }

    method InitLinks(i: nat)
      modifies `next, `prev
      ensures LinksSet(Mem(next, prev), i)
      ensures forall t :: LinksSet(old(Mem(next, prev)), t) ==> LinksSet(Mem(next, prev), t)
    {
      next := next[Node(P, i) := Base(Tmo)];
      prev := prev[Node(P, i) := Base(Tmo)];
      SelfLink(Node(W, i));
      SelfLink(Node(T, i));
    }

    /** sched_init. */
    method SchedInit()
      modifies `next, `prev, `flag
      ensures forall p :: 1 <= p <= TMAX_TPRI ==> SelfLinked(Mem(next, prev), Base(Ready(p)))
      ensures SelfLinked(Mem(next, prev), Base(Tmo)) && flag == [false, false]
      ensures NodesKept(old(Mem(next, prev)), Mem(next, prev))
    {
      var i := 1;
      while i <= TMAX_TPRI
        invariant 1 <= i <= TMAX_TPRI + 1 && NodesKept(old(Mem(next, prev)), Mem(next, prev))
        invariant forall p :: 1 <= p < i ==> SelfLinked(Mem(next, prev), Base(Ready(p)))
      {
        SelfLink(Base(Ready(i)));
        i := i + 1;
      }
      SelfLink(Base(Tmo));
      flag := [false, false];
    }

    /** sem_init. */
    method SemInit()
      requires |sem| == MAX_ID + 1
      modifies `next, `prev, `sem
      ensures forall s :: 1 <= s <= MAX_ID ==> SelfLinked(Mem(next, prev), Base(SemQ(s)))
      ensures |sem| == MAX_ID + 1 && forall s :: 0 <= s <= MAX_ID ==> sem[s] == old(sem)[s].(act := false)
      ensures NodesKept(old(Mem(next, prev)), Mem(next, prev))
      ensures forall h: Head :: !h.SemQ? && SelfLinked(old(Mem(next, prev)), Base(h)) ==>
        SelfLinked(Mem(next, prev), Base(h))
    {
      var i := 0;
      while i <= MAX_ID
        invariant i <= MAX_ID + 1 == |sem| && NodesKept(old(Mem(next, prev)), Mem(next, prev))
        invariant forall s :: 0 <= s < i ==> SelfLinked(Mem(next, prev), Base(SemQ(s)))
        invariant forall s :: 0 <= s < i ==> sem[s] == old(sem)[s].(act := false)
        invariant forall s :: i <= s <= MAX_ID ==> sem[s] == old(sem)[s]
        invariant forall h: Head :: !h.SemQ? && SelfLinked(old(Mem(next, prev)), Base(h)) ==>
                    SelfLinked(Mem(next, prev), Base(h))
      {
        SelfLink(Base(SemQ(i)));
        sem := sem[i := sem[i].(act := false)];
        i := i + 1;
      }
    }

    /** mtx_init. */
    method MtxInit()
      requires |mtx| == SLOTS
      modifies `next, `prev, `mtx
      ensures forall m :: 1 <= m < SLOTS ==> SelfLinked(Mem(next, prev), Base(MtxQ(m)))
      ensures |mtx| == SLOTS && forall m :: 1 <= m < SLOTS ==> mtx[m] == old(mtx)[m].(act := false)
      ensures mtx[0] == old(mtx)[0]
      ensures NodesKept(old(Mem(next, prev)), Mem(next, prev))
      ensures forall h: Head :: !h.MtxQ? && SelfLinked(old(Mem(next, prev)), Base(h)) ==>
        SelfLinked(Mem(next, prev), Base(h))
    {
      var i := 1;
      while i < SLOTS
        invariant 1 <= i <= SLOTS == |mtx| && NodesKept(old(Mem(next, prev)), Mem(next, prev))
        invariant forall m :: 1 <= m < i ==> SelfLinked(Mem(next, prev), Base(MtxQ(m)))
        invariant forall m :: 1 <= m < i ==> mtx[m] == old(mtx)[m].(act := false)
        invariant mtx[0] == old(mtx)[0] && forall m :: i <= m < SLOTS ==> mtx[m] == old(mtx)[m]
        invariant forall h: Head :: !h.MtxQ? && SelfLinked(old(Mem(next, prev)), Base(h)) ==>
                    SelfLinked(Mem(next, prev), Base(h))
      {
        SelfLink(Base(MtxQ(i)));
        mtx := mtx[i := mtx[i].(act := false)];
        i := i + 1;
      }
    }

    /** Create and activate a task on behalf of CPU 0, then set its state and the CPU it belongs to. */
    method BootOne(t: nat, p: Pri, cpu: nat, s: Stat)
      requires Valid() && IsTask(t) && tsk[t].stat == NON && !Queued(q, P, t)
      modifies this
      ensures Valid() && Ready(p) in old(q) && View() == WithTask(old(View()), t, p, cpu, s)
    {
      hide Represents, Queued, AllIds;
      assert ValidHead(Ready(p));
      var er := SysCreTsk(0, t, p);
      er := SysActTsk(0, t);
      tsk := tsk[t := tsk[t].(stat := s)];
      tsk := tsk[t := tsk[t].(cpu := cpu)];
      AppendIsInsert(old(q)[Ready(p)], t);
    }

    /** proc_init: the first task of each CPU, running, and the two idle tasks. */
    method ProcInit()
      requires Valid() && View() == Blank()
      modifies this
      ensures Valid() && View() == Boot() && Inv(View())
    {
      hide Represents, AllIds, Queued, Inv, Blank, Boot, WithTask;
      BlankTasks();
      BlankHeads();
      BootOne(1, 15, 0, RUN);
      ghost var k1 := View();
      WithTaskEffect(Blank(), 1, 15, 0, RUN);
      BootOne(2, 15, 1, RUN);
      ghost var k2 := View();
      WithTaskEffect(k1, 2, 15, 1, RUN);
      BootOne(IDLE0, 16, 0, RDY);
      WithTaskEffect(k2, IDLE0, 16, 0, RDY);
      BootOne(IDLE1, 16, 1, RDY);
      BootIs();
      BootInv();
    }

    // ----- kernel/sched.c -----

    method SchedIns(pri: int, t: nat) returns (er: int)
      requires Valid() && IsTask(t) && !Queued(q, P, t)
      modifies this
      ensures Valid()
      ensures if 1 <= pri <= TMAX_TPRI then
                er == E_OK && View() == Enqueue(old(View()), Ready(pri), |old(q)[Ready(pri)]|, t)
              else er == E_PAR && View() == old(View())
    {
      hide Represents, AllIds, Queued, InsertAt, OwnersOk;
      if pri < 1 || pri > TMAX_TPRI {
        return E_PAR;
      }
      var link, head := Node(P, t), Base(Ready(pri));
      ghost var m, q0, i := Mem(next, prev), q, |q[Ready(pri)]|;
      NodeInMem(m, q, P, t);
      InsertShape(View(), Ready(pri), i, t);
      Follow(m, q, Ready(pri), i);
      BaseInMem(m, q, Ready(pri));
      InsertRepresents(m, q, Ready(pri), i, t);
      next := next[link := head];
      prev := prev[link := prev[head]];
      next := next[prev[head] := link];
      prev := prev[head := link];
      q := q0[Ready(pri) := InsertAt(q0[Ready(pri)], i, t)];
      assert Mem(next, prev) == LinkAfter(m, At(Ready(pri), q0[Ready(pri)], i), link);
      return E_OK;
    }

    /** Unlink t's plink from the ready queue it is in, that of priority p. */
    method SchedRem(t: nat, ghost p: nat)
      requires Valid() && IsTask(t) && ValidHead(Ready(p)) && t in q[Ready(p)]
      modifies this
      ensures Valid() && View() == Dequeue(old(View()), Ready(p), t)
    {
      hide Represents, AllIds, Queued, Without, OwnersOk;
      var link := Node(P, t);
      ghost var m, q0, h := Mem(next, prev), q, Ready(p);
      NodeInMem(m, q, P, t);
      RemoveShape(View(), h, t);
      RemoveReadyRepresents(m, q, p, t);
      assert link in next && link in prev;
      next := next[prev[link] := next[link]];
      prev := prev[next[link] := prev[link]];
      q := q0[h := Without(q0[h], t)];
      assert Mem(next, prev) == Unlink(m, link);
    }

    // ----- kernel/sys_sem.c: object wait queues -----

    /** Link t's wlink behind base, which is stop i of queue h. */
    method WlinkIns(base: Addr, t: nat, ghost h: Head, ghost i: nat)
      requires Valid() && IsTask(t) && !Queued(q, W, t)
      requires ValidHead(h) && KindOf(h) == W && i <= |q[h]| && base == At(h, q[h], i)
      modifies this
      ensures Valid() && View() == Enqueue(old(View()), h, i, t)
    {
      hide Represents, AllIds, Queued, InsertAt, OwnersOk;
      var wlink := Node(W, t);
      ghost var m, q0 := Mem(next, prev), q;
      NodeInMem(m, q, W, t);
      InsertShape(View(), h, i, t);
      Follow(m, q, h, i);
      InsertRepresents(m, q, h, i, t);
      prev := prev[wlink := base];
      next := next[wlink := next[base]];
      prev := prev[next[base] := wlink];
      next := next[base := wlink];
      q := q0[h := InsertAt(q0[h], i, t)];
      assert Mem(next, prev) == LinkAfter(m, base, wlink);
    }

    method InsFifo(h: Head, t: nat)
      requires Valid() && IsTask(t) && !Queued(q, W, t) && ValidHead(h) && KindOf(h) == W
      modifies this
      ensures Valid() && View() == Enqueue(old(View()), h, |old(q)[h]|, t)
    {
      var base := Base(h);
      ghost var i := 0;
      Follow(Mem(next, prev), q, h, 0);
      while next[base] != Base(h)
        invariant Valid() && View() == old(View()) && next == old(next) && prev == old(prev)
        invariant i <= |q[h]| && base == At(h, q[h], i) && base in next && next[base] == At(h, q[h], i + 1)
        decreases |q[h]| - i
      {
        base := next[base];
        i := i + 1;
        Follow(Mem(next, prev), q, h, i);
      }
      WlinkIns(base, t, h, i);
    }

    method InsPri(h: Head, t: nat)
      requires Valid() && IsTask(t) && !Queued(q, W, t) && ValidHead(h) && KindOf(h) == W
      modifies this
      ensures Valid() && View() == Enqueue(old(View()), h, PriPosition(old(tsk), old(q)[h], old(tsk)[t].pri), t)
    {
      hide Represents, Queued, OwnersOk, Enqueue, PriPosition;
      var base: Addr;
      ghost var i: nat;
      base, i := SeekPri(h, t);
      WlinkIns(base, t, h, i);
    }

    /** The walk of ins_pri: to the last link that is not followed by one of a lower priority. */
    method SeekPri(h: Head, t: nat) returns (base: Addr, ghost i: nat)
      requires Valid() && IsTask(t) && ValidHead(h) && KindOf(h) == W
      ensures i == PriPosition(tsk, q[h], tsk[t].pri) && base == At(h, q[h], i)
    {
      hide Represents, OwnersOk;
      i := 0;
      Follow(Mem(next, prev), q, h, 0);
      base := next[Base(h)];
      while base != Base(h)
        invariant i <= |q[h]| && base == At(h, q[h], i + 1)
        invariant forall j :: 0 <= j < i ==> tsk[q[h][j]].pri <= tsk[t].pri
        decreases |q[h]| - i
      {
        if tsk[base.t].pri > tsk[t].pri {
          break;
        }
        Follow(Mem(next, prev), q, h, i + 1);
        base := next[base];
        i := i + 1;
      }
      Follow(Mem(next, prev), q, h, i);
      base := prev[base];
    }

    /** Join the neighbours of a link and point it to itself. */
    method JoinNeighbours(a: Addr)
      requires a in next && a in prev
      modifies `next, `prev
      ensures Mem(next, prev) == PointToSelf(Unlink(old(Mem(next, prev)), a), a)
    {
      next := next[prev[a] := next[a]];
      prev := prev[next[a] := prev[a]];
      next := next[a := a];
      prev := prev[a := a];
    }

    method WlinkRem(t: nat)
      requires Valid() && IsTask(t) && Queued(q, W, t)
      modifies this
      ensures Valid() && View() == old(View()).(q := RemoveWaits(old(q), t))
    {
      hide Represents, AllIds, Queued, Without, OwnersOk, PointToSelf, Unlink;
      var wlink := Node(W, t);
      ghost var m, q0 := Mem(next, prev), q;
      ghost var h := WhichQueue(q, W, t);
      NodeInMem(m, q, W, t);
      RemoveSelfRepresents(m, q, h, t);
      RepresentsApart(m, q);
      RemoveWaitsFromOne(q, h, t);
      RemoveWaitsShape(View(), t);
      JoinNeighbours(wlink);
      q := RemoveWaits(q0, t);
    }

    // ----- kernel/sched.c: the timeout list -----

    /** Link t's tlink behind tp, which is stop i of the timeout list. */
    method TlinkIns(tp: Addr, t: nat, ghost i: nat)
      requires Valid() && IsTask(t) && !Queued(q, T, t)
      requires i <= |q[Tmo]| && tp == At(Tmo, q[Tmo], i)
      modifies this
      ensures Valid() && View() == Enqueue(old(View()), Tmo, i, t)
    {
      hide Represents, AllIds, Queued, InsertAt, OwnersOk;
      var tlink := Node(T, t);
      ghost var m, q0 := Mem(next, prev), q;
      NodeInMem(m, q, T, t);
      InsertShape(View(), Tmo, i, t);
      Follow(m, q, Tmo, i);
      InsertRepresents(m, q, Tmo, i, t);
      prev := prev[tlink := tp];
      prev := prev[next[tp] := tlink];
      next := next[tlink := next[tp]];
      next := next[tp := tlink];
      q := q0[Tmo := InsertAt(q0[Tmo], i, t)];
      assert Mem(next, prev) == LinkAfter(m, tp, tlink);
    }

    /** The walk of sched_timeout_ins: deltas on the way are subtracted from that of t, and what remains is subtracted
        from the entry in front of which t goes. */
    method SeekTimeout(t: nat) returns (tp: Addr, ghost i: nat)
      requires Valid() && IsTask(t) && !Queued(q, T, t)
      modifies `delta
      ensures |delta| == SLOTS && i == Position(q[Tmo], old(delta), old(delta)[t], 0).0 && tp == At(Tmo, q[Tmo], i + 1)
      ensures delta == Inserted(q[Tmo], old(delta), t, old(delta)[t]).1
    {
      hide Represents, Queued, InsertAt, OwnersOk, Position, Inserted;
      ghost var m, s, d0, x := Mem(next, prev), q[Tmo], delta, delta[t];
      TimeoutQueue(q, t);
      i := 0;
      Follow(m, q, Tmo, 0);
      tp := next[Base(Tmo)];
      while tp != Base(Tmo)
        invariant i <= |s| && tp == At(Tmo, s, i + 1)
        invariant |delta| == |d0| && delta[t] <= x && delta == d0[t := delta[t]]
        invariant Position(s, d0, x, 0) == Position(s, d0, delta[t], i)
        decreases |s| - i
      {
        assert s[i] != t && tp.t == s[i];
        PositionNext(s, d0, t, delta[t], i);
        if delta[tp.t] >= delta[t] {
          delta := delta[tp.t := delta[tp.t] - delta[t]];
          return;
        }
        delta := delta[t := delta[t] - delta[tp.t]];
        Follow(m, q, Tmo, i + 1);
        tp := next[tp];
        i := i + 1;
      }
      PositionNext(s, d0, t, delta[t], i);
    }

    method SchedTimeoutIns(t: nat)
      requires Valid() && IsTask(t) && !Queued(q, T, t)
      modifies this
      ensures Valid() && View() == KernelState.TimeoutIns(old(View()), t, old(delta)[t])
    {
      hide Represents, Queued, InsertAt, OwnersOk, AllIds, Position;
      ghost var k := View();
      TimeoutInsShape(k, t);
      var tp, i := SeekTimeout(t);
      Follow(Mem(next, prev), q, Tmo, i);
      tp := prev[tp];
      TlinkIns(tp, t, i);
    }

    method SchedTimeoutRem(t: nat)
      requires Valid() && IsTask(t) && t in q[Tmo]
      modifies this
      ensures Valid() && View() == KernelState.TimeoutRemIfExist(old(View()), t)
    {
      hide Represents, Queued, Without, OwnersOk, PointToSelf, Unlink, Carried, TimeoutRemIfExist;
      var tlink := Node(T, t);
      ghost var m, s := Mem(next, prev), q[Tmo];
      ghost var r := KernelState.TimeoutRemIfExist(View(), t);
      TimeoutRemIs(View(), t);
      NodeInMem(m, q, T, t);
      RemoveSelfRepresents(m, q, Tmo, t);
      CarryDelta(tlink, IndexOf(s, t));
      JoinNeighbours(tlink);
      q := q[Tmo := Without(s, t)];
      assert View() == r;
    }

    method CarryDelta(tlink: Addr, ghost i: nat)
      requires Valid() && i < |q[Tmo]| && tlink == Node(T, q[Tmo][i]) && IsTask(tlink.t) && InRange(q[Tmo], delta)
      modifies `delta
      ensures delta == Carried(q[Tmo], old(delta), i) && Shape(View())
    {
      hide Represents;
      Follow(Mem(next, prev), q, Tmo, i + 1);
      if next[tlink] != Base(Tmo) {
        delta := delta[next[tlink].t := (delta[next[tlink].t] + delta[tlink.t]) % UINT_MOD];
      }
    }

    method SchedTimeoutRemIfExist(t: nat)
      requires Valid() && IsTask(t)
      modifies this
      ensures Valid() && View() == KernelState.TimeoutRemIfExist(old(View()), t)
    {
      SelfLinkedIffUnqueued(Mem(next, prev), q, T, t);
      TimeoutQueue(q, t);
      if next[Node(T, t)] == Node(T, t) {
        return;
      }
      SchedTimeoutRem(t);
    }

    /** Take the head entry off the timeout list and mark it as unqueued; its residual delta of 0 is carried over. */
    method PopTimeout(tp: Addr)
      requires Valid() && q[Tmo] != [] && tp == Node(T, q[Tmo][0]) && delta[q[Tmo][0]] == 0
      modifies this
      ensures Valid() && View() == old(View()).(q := old(q)[Tmo := old(q)[Tmo][1..]])
    {
      hide Represents, Queued, OwnersOk, PointToSelf, Unlink;
      PopRepresents(Mem(next, prev), q);
      CarryDelta(tp, 0);
      assert delta == old(delta);
      JoinNeighbours(tp);
      q := q[Tmo := q[Tmo][1..]];
    }

    /** Wake an expired task: off its object queue, E_TMOUT, ready. */
    method WakeExpired(t: nat)
      requires Valid() && IsTask(t) && !Queued(q, P, t)
      modifies this
      ensures Valid()
      ensures var k1 := old(View());
              var k2 := k1.(q := RemoveWaits(k1.q, t));
              Shape(k2) && View() == KernelState.SchedIns(SetTsk(k2, t, k1.tsk[t].(eax := E_TMOUT, stat := RDY)), t)
    {
      hide Represents, RemoveWaits, Queued, AllIds, OwnersOk, InsertAt;
      SelfLinkedIffUnqueued(Mem(next, prev), q, W, t);
      RemoveWaitsShape(View(), t);
      RemoveWaitsReady(q, t);
      if next[Node(W, t)] != Node(W, t) {
        WlinkRem(t);
      } else {
        RemoveWaitsFromNone(q, t);
      }
      tsk := tsk[t := tsk[t].(eax := E_TMOUT)];
      tsk := tsk[t := tsk[t].(stat := RDY)];
      var er := SchedIns(tsk[t].pri, t);
    }

    method SchedNextTsk()
      modifies this
      ensures View() == Resched(old(View())) && next == old(next) && prev == old(prev)
    {
      flag := [true, true];
    }

    /** One round of the expiry loop. */
    method ExpireHead(tp: Addr) returns (woke: bool)
      requires Valid() && BaseInv(View()) && OwnOk(tsk, mtx) && InRange(q[Tmo], delta)
      requires q[Tmo] != [] && tp == Node(T, q[Tmo][0]) && delta[q[Tmo][0]] == 0
      modifies this
      ensures Valid() && BaseInv(View()) && OwnOk(tsk, mtx) && InRange(q[Tmo], delta)
      ensures View() == Expire(old(View())) && woke
      ensures old(tsk)[old(q)[Tmo][0]].stat == WAI
    {
      hide Represents, LinksOk, SemOk, MtxOk, OwnOk, CpuOk, IdleOk, ReadyOk, WaitOk, Queued, NoDup, AllIds;
      ghost var k := View();
      HeadIsTask(k, Tmo);
      ExpireKeeps(k);
      StillUnlinked(k, tp.t);
      woke := false;
      PopTimeout(tp);
      if tsk[tp.t].stat == WAI {
        WakeExpired(tp.t);
        woke := true;
      }
    }

    /** sched_timeout, called by the timer interrupt with a delta of 1. */
    method SchedTimeout()
      requires Valid() && Inv(View())
      modifies this
      ensures Valid() && View() == Tick(old(View()))
    {
      hide Represents, Inv, BaseInv, OwnOk, Queued, Expire, ExpireLoop, AllIds, OwnersOk;
      ghost var k0 := View();
      HeadStop(Mem(next, prev), q, Tmo);
      StartTick(k0);
      var tp := next[Base(Tmo)];
      if tp == Base(Tmo) {
        return;
      }
      delta := delta[tp.t := (delta[tp.t] - 1) % UINT_MOD];
      var woken := false;
      while tp != Base(Tmo) && delta[tp.t] <= 0
        invariant Valid() && BaseInv(View()) && OwnOk(tsk, mtx) && InRange(q[Tmo], delta)
        invariant tp == if q[Tmo] == [] then Base(Tmo) else Node(T, q[Tmo][0])
        invariant ExpireLoop(View(), woken) == Tick(k0)
        decreases |q[Tmo]|
      {
        ExpireLoopStep(View(), woken);
        var woke := ExpireHead(tp);
        woken := woken || woke;
        HeadStop(Mem(next, prev), q, Tmo);
        tp := next[Base(Tmo)];
      }
      ExpireLoopStep(View(), woken);
      if woken {
        SchedNextTsk();
      }
    }

    /** The inner loop of sched_do_next_tsk: walk one ready queue up to the first task CPU c can run. */
    method ScanReady(c: nat, i: nat) returns (r: Option<nat>)
      requires Valid() && 1 <= i <= TMAX_TPRI
      ensures r == FirstRunnable(tsk, c, q[Ready(i)])
    {
      hide Rings, NodesOk, OwnersOk, FirstRunnable;
      ghost var s := q[Ready(i)];
      ghost var j := 0;
      HeadStop(Mem(next, prev), q, Ready(i));
      Follow(Mem(next, prev), q, Ready(i), 0);
      var link := next[Base(Ready(i))];
      assert s[0..] == s;
      while link != Base(Ready(i))
        invariant j <= |s| && link == At(Ready(i), s, j + 1)
        invariant FirstRunnable(tsk, c, s) == FirstRunnable(tsk, c, s[j..])
        decreases |s| - j
      {
        ScanStep(tsk, c, s, j);
        MemberIsTask(View(), Ready(i), j);
        if tsk[link.t].stat == RDY && tsk[link.t].cpu == c {
          return Some(link.t);
        }
        Follow(Mem(next, prev), q, Ready(i), j + 1);
        link := next[link];
        j := j + 1;
      }
      ScanEmpty(tsk, c, s);
      return None;
    }

    /** Its outer loop: from the most urgent priority to the least. */
    method ScanAll(c: nat) returns (r: Option<nat>)
      requires Valid()
      ensures r == Pick(View(), c, 1)
    {
      hide Represents, QShape, OwnersOk, FirstRunnable;
      var i := 1;
      while i <= TMAX_TPRI
        invariant 1 <= i <= TMAX_TPRI + 1 && Pick(View(), c, 1) == Pick(View(), c, i)
      {
        r := ScanReady(c, i);
        if r.Some? {
          return;
        }
        i := i + 1;
      }
      return None;
    }

    /** sched_do_next_tsk, inside the kernel lock. */
    method SchedDoNextTsk(c: nat) returns (id: int)
      requires Valid() && c < 2
      modifies this
      ensures Valid() && (View(), id) == DoNext(old(View()), c)
    {
      hide Represents, QShape, OwnersOk, Pick;
      var wasRun := false;
      var oldId := cur[c];
      if 0 < oldId < MAX_ID && tsk[oldId].stat == RUN {
        tsk := tsk[oldId := tsk[oldId].(stat := RDY)];
        wasRun := true;
      }
      var r := ScanAll(c);
      if r.Some? {
        tsk := tsk[r.value := tsk[r.value].(stat := RUN)];
        cur := cur[c := r.value];
        return r.value;
      }
      if wasRun {
        tsk := tsk[oldId := tsk[oldId].(stat := RUN)];
      }
      assert View() == old(View());
      return E_ID;
    }

    /** sched_next_tsk_check: tells whether the CPU has a new current task. */
    method SchedNextTskCheck(c: nat) returns (switched: bool)
      requires Valid() && c < 2
      modifies this
      ensures Valid() && View() == Dispatch(old(View()), c) && switched == (cur[c] != old(cur)[c])
    {
      hide Represents, QShape, OwnersOk;
      if flag[c] {
        var oldTask := cur[c];
        var id := SchedDoNextTsk(c);
        flag := flag[c := false];
        if oldTask != cur[c] {
          return true;
        }
      }
      switched := false;
    }

    // ----- kernel/sys_tsk.c -----

    method SysCreTsk(c: nat, t: nat, p: Pri) returns (er: int)
      requires Valid() && t != SLOTS
      modifies this
      ensures Valid() && (View(), er) == CreTsk(old(View()), c, t, p)
    {
      hide Represents, QShape;
      if t < 1 || t > SLOTS {
        return E_ID;
      }
      if tsk[t].stat != NON {
        return E_OBJ;
      }
      tsk := tsk[t := Tcb(DMT, p, p, 0, 0, 0, c, 0)];
      er := E_OK;
    }

    method SysActTsk(c: nat, id: nat) returns (er: int)
      requires Valid() && c < 2
      requires var t := if id == 0 then cur[c] else id; t < SLOTS && tsk[t].stat == DMT ==> !Queued(q, P, t)
      modifies this
      ensures Valid() && (View(), er) == ActTsk(old(View()), c, id)
    {
      hide Represents, Queued, QShape, InsertAt;
      var t := if id == 0 then cur[c] else id;
      if t < 1 || t > SLOTS {
        return E_ID;
      }
      if t == SLOTS || tsk[t].stat == NON {
        return E_NOEXS;
      }
      if tsk[t].stat != DMT {
        if tsk[t].actcnt < TMAX_ACTCNT {
          tsk := tsk[t := tsk[t].(actcnt := tsk[t].actcnt + 1)];
          return E_OK;
        }
        return E_QOVR;
      }
      tsk := tsk[t := tsk[t].(stat := RDY)];
      var ignored := SchedIns(tsk[t].pri, t);
      return E_OK;
    }

    method SysSlpTsk(c: nat) returns (er: int)
      requires Valid() && c < 2
      requires tsk[cur[c]].wupcnt == 0 ==> cur[c] in q[Ready(tsk[cur[c]].pri)]
      modifies this
      ensures Valid() && (View(), er) == SlpTsk(old(View()), c)
    {
      hide Represents, QShape, Without;
      var t := cur[c];
      if tsk[t].wupcnt >= 1 {
        tsk := tsk[t := tsk[t].(wupcnt := tsk[t].wupcnt - 1)];
        return E_OK;
      }
      SchedRem(t, tsk[t].pri);
      tsk := tsk[t := tsk[t].(stat := WAI)];
      SchedNextTsk();
      return E_OK;
    }

    /** The common part of tslp_tsk and dly_tsk. */
    method Sleep(t: nat, x: nat)
      requires Valid() && IsTask(t) && x < UINT_MOD && t in q[Ready(tsk[t].pri)] && !Queued(q, T, t)
      modifies this
      ensures Valid()
      ensures View() == Resched(KernelState.TimeoutIns(SetStat(KernelState.SchedRem(old(View()), t), t, WAI), t, x))
    {
      hide Represents, AllIds, Without, Queued, Inserted;
      ghost var k0 := View();
      TimeoutQueue(q, t);
      UnqueuedAfterDequeue(k0, Ready(tsk[t].pri), t, T);
      TimeoutInsIgnores(SetStat(KernelState.SchedRem(k0, t), t, WAI), t, x);
      delta := delta[t := x];
      SchedRem(t, tsk[t].pri);
      tsk := tsk[t := tsk[t].(stat := WAI)];
      SchedTimeoutIns(t);
      SchedNextTsk();
    }

    method SysTslpTsk(c: nat, tmout: nat) returns (er: int)
      requires Valid() && c < 2 && tmout < UINT_MOD
      requires tsk[cur[c]].wupcnt == 0 ==> cur[c] in q[Ready(tsk[cur[c]].pri)] && !Queued(q, T, cur[c])
      modifies this
      ensures Valid() && (View(), er) == TslpTsk(old(View()), c, tmout)
    {
      hide Represents, QShape, Without, Queued, TimeoutIns;
      var t := cur[c];
      if tsk[t].wupcnt >= 1 {
        tsk := tsk[t := tsk[t].(wupcnt := tsk[t].wupcnt - 1)];
        return E_OK;
      }
      Sleep(t, tmout);
      return E_OK;
    }

    method SysDlyTsk(c: nat, dlytim: nat) returns (er: int)
      requires Valid() && c < 2 && dlytim < UINT_MOD
      requires dlytim != 0 ==> cur[c] in q[Ready(tsk[cur[c]].pri)] && !Queued(q, T, cur[c])
      modifies this
      ensures Valid() && (View(), er) == DlyTsk(old(View()), c, dlytim)
    {
      hide Represents, QShape, Without, Queued, TimeoutIns;
      if dlytim == 0 {
        return E_OK;
      }
      Sleep(cur[c], dlytim);
      return E_OK;
    }

    method SysWupTsk(c: nat, id: nat) returns (er: int)
      requires Valid() && c < 2 && id <= SLOTS && Inv(View()) && Caller(View(), c)
      modifies this
      ensures Valid() && (View(), er) == WupTsk(old(View()), c, id)
    {
      hide Represents, LinksOk, SemOk, MtxOk, OwnOk, CpuOk, IdleOk, ReadyOk, WaitOk, Queued, QShape,
        InsertAt, TimeoutRemIfExist, WellFormed;
      var t := id;
      var normal := true;
      if t == 0 {
        t := cur[c];
        normal := false;
      }
      if t == SLOTS || tsk[t].stat != WAI {
        if t == SLOTS || tsk[t].stat == NON {
          return E_NOEXS;
        }
        if tsk[t].stat == DMT {
          return E_OBJ;
        }
        if tsk[t].wupcnt > TMAX_WUPCNT {
          return E_QOVR;
        }
        tsk := tsk[t := tsk[t].(wupcnt := tsk[t].wupcnt + 1)];
        return E_OK;
      }
      InactiveIsUnlinked(View(), t);
      WakeTask(c, t, normal);
      return E_OK;
    }

    /** The waiting branch of sys_wup_tsk; normal tells that t is not the caller itself. */
    method WakeTask(c: nat, t: nat, normal: bool)
      requires Valid() && c < 2 && IsTask(t) && !Queued(q, P, t)
      modifies this
      ensures Valid()
      ensures var k1 := SetStat(old(View()), t, RDY);
              var k2 := if normal then KernelState.SchedIns(SetStat(k1, k1.cur[c], RDY), t) else k1;
              View() == Resched(KernelState.TimeoutRemIfExist(k2, t))
    {
      hide Represents, Queued, AllIds, OwnersOk, InsertAt, TimeoutRemIfExist;
      tsk := tsk[t := tsk[t].(stat := RDY)];
      if normal {
        tsk := tsk[cur[c] := tsk[cur[c]].(stat := RDY)];
        var ignored := SchedIns(tsk[t].pri, t);
      }
      SchedTimeoutRemIfExist(t);
      SchedNextTsk();
    }

    // ----- kernel/sys_sem.c -----

    method SysCreSem(s: nat, atr: nat, cnt: nat, max: nat) returns (er: int)
      requires Valid()
      modifies this
      ensures Valid() && (View(), er) == CreSem(old(View()), s, atr, cnt, max)
    {
      hide Represents, QShape;
      if s < 1 || s > MAX_ID {
        return E_ID;
      }
      if sem[s].act {
        return E_OBJ;
      }
      sem := sem[s := Sem(true, atr, cnt, max)];
      er := E_OK;
    }

    method SysSigSem(s: nat) returns (er: int)
      requires Valid() && Inv(View())
      modifies this
      ensures Valid() && (View(), er) == SigSem(old(View()), s)
    {
      hide Rings, NodesOk, LinksOk, SemOk, MtxOk, OwnOk, CpuOk, IdleOk, ReadyOk, WaitOk, Queued, AllIds,
        InsertAt, Without, TimeoutRemIfExist, WellFormed, RemoveWaits, OwnersOk;
      if s < 1 || s > MAX_ID {
        return E_ID;
      }
      if !sem[s].act {
        return E_NOEXS;
      }
      HeadStop(Mem(next, prev), q, SemQ(s));
      var wlink := next[Base(SemQ(s))];
      if wlink != Base(SemQ(s)) {
        ghost var k := View();
        HeadWaits(k, SemQ(s));
        OneWait(k, SemQ(s), wlink.t);
        UnqueuedAfterDequeue(k, SemQ(s), wlink.t, P);
        UnqueuedAfterTimeoutRem(Dequeue(k, SemQ(s), wlink.t), wlink.t, P);
        HandTo(s, wlink.t);
      } else {
        if (sem[s].cnt + 1) % UINT_MOD > sem[s].max {
          return E_QOVR;
        }
        sem := sem[s := sem[s].(cnt := (sem[s].cnt + 1) % UINT_MOD)];
      }
      return E_OK;
    }

    /** The first waiter t leaves the semaphore queue and the timeout list and is made ready with E_OK. */
    method HandTo(s: nat, t: nat)
      requires Valid() && 1 <= s <= MAX_ID && sem[s].act && q[SemQ(s)] != [] && t == q[SemQ(s)][0] && IsTask(t)
      requires Queued(q, W, t) && RemoveWaits(q, t) == Dequeue(View(), SemQ(s), t).q
      requires !Queued(TimeoutRemIfExist(Dequeue(View(), SemQ(s), t), t).q, P, t)
      modifies this
      ensures Valid() && View() == SigSem(old(View()), s).0
    {
      hide Represents, Queued, AllIds, InsertAt, Without, RemoveWaits, OwnersOk, TimeoutRemIfExist, SigSem;
      ghost var k := View();
      SigIs(k, s);
      WlinkRem(t);
      assert View() == Dequeue(k, SemQ(s), t);
      SchedTimeoutRemIfExist(t);
      tsk := tsk[t := tsk[t].(stat := RDY)];
      var ignored := SchedIns(tsk[t].pri, t);
      tsk := tsk[t := tsk[t].(eax := E_OK)];
    }

    method SysPolSem(s: nat) returns (er: int)
      requires Valid()
      modifies this
      ensures Valid() && (View(), er) == PolSem(old(View()), s)
    {
      hide Represents, QShape;
      if s < 1 || s > MAX_ID {
        return E_ID;
      }
      if !sem[s].act {
        return E_NOEXS;
      }
      if sem[s].cnt == 0 {
        return E_TMOUT;
      }
      sem := sem[s := sem[s].(cnt := sem[s].cnt - 1)];
      return E_OK;
    }

    method SysTwaiSem(c: nat, s: nat, tmout: nat) returns (er: int)
      requires Valid() && c < 2 && tmout < UINT_MOD && Inv(View()) && Caller(View(), c)
      modifies this
      ensures Valid() && (View(), er) == TwaiSem(old(View()), c, s, tmout)
    {
      hide Represents, LinksOk, SemOk, MtxOk, OwnOk, CpuOk, IdleOk, ReadyOk, WaitOk, Queued, AllIds,
        InsertAt, WellFormed, OwnersOk, SlpTsk, TslpTsk;
      if s < 1 || s > MAX_ID {
        return E_ID;
      }
      if !sem[s].act {
        return E_NOEXS;
      }
      if sem[s].cnt == 0 {
        if tmout == TMO_POL {
          return E_TMOUT;
        }
        ghost var k := View();
        CallerIsReady(k, c);
        UnqueuedAfterEnqueue(k, SemQ(s), SemPlace(k, c, s), cur[c], cur[c], T);
        if sem[s].atr == 0 {
          InsFifo(SemQ(s), cur[c]);
        } else {
          InsPri(SemQ(s), cur[c]);
        }
        var ignored: int;
        if tmout == TMO_FEVR {
          ignored := SysSlpTsk(c);
        } else {
          ignored := SysTslpTsk(c, tmout);
        }
        return E_TMOUT;
      } else {
        sem := sem[s := sem[s].(cnt := sem[s].cnt - 1)];
      }
      return E_OK;
    }

    // ----- kernel/sys_mtx.c -----

    method SysCreMtx(m: nat, atr: nat, ceil: nat) returns (er: int)
      requires Valid() && m != SLOTS
      modifies this
      ensures Valid() && (View(), er) == CreMtx(old(View()), m, atr, ceil)
    {
      hide Represents, QShape;
      if m < 1 || m > SLOTS {
        return E_ID;
      }
      if mtx[m].act {
        return E_OBJ;
      }
      mtx := mtx[m := mtx[m].(act := true, atr := atr, ceil := ceil)];
      er := E_OK;
    }

    /** Change a ready task's priority and requeue it. */
    method Requeue(t: nat, p: Pri)
      requires Valid() && LinksOk(q) && IsTask(t) && t in q[Ready(tsk[t].pri)]
      modifies this
      ensures Valid() && View() == Reprioritize(old(View()), t, p)
    {
      hide Represents, AllIds, Queued, InsertAt, Without, LinksOk;
      ghost var k, was := View(), tsk[t].pri;
      DequeuedReady(k, was, t);
      tsk := tsk[t := tsk[t].(pri := p)];
      SchedRem(t, was);
      var ignored := SchedIns(tsk[t].pri, t);
    }

    method SysTlocMtx(c: nat, m: nat, tmout: nat) returns (er: int)
      requires Valid() && c < 2 && tmout < UINT_MOD && Inv(View()) && Caller(View(), c)
      requires BoostsReady(View(), c, m, tmout)
      modifies this
      ensures Valid() && (View(), er) == TlocMtx(old(View()), c, m, tmout)
    {
      hide Represents, LinksOk, SemOk, MtxOk, OwnOk, CpuOk, IdleOk, ReadyOk, WaitOk, Queued, AllIds,
        InsertAt, WellFormed, SlpTsk, TslpTsk, Reprioritize, Without, NoDup, MaySleep;
      ghost var k := View();
      var t := cur[c];
      if m < 1 || m > SLOTS {
        return E_ID;
      }
      if m == SLOTS || !mtx[m].act {
        return E_NOEXS;
      }
      if !mtx[m].lock {
        mtx := mtx[m := mtx[m].(lock := true)];
        mtx := mtx[m := mtx[m].(owner := t)];
        assert mtx == k.mtx[m := k.mtx[m].(lock := true, owner := t)];
        tsk := tsk[t := tsk[t].(mtxcnt := tsk[t].mtxcnt + 1)];
        return E_OK;
      }
      if mtx[m].owner == t {
        return E_ILUSE;
      }
      if mtx[m].atr % 4 != 0 {
        if tsk[t].bpri > mtx[m].ceil {
          return E_ILUSE;
        }
      }
      if tmout == TMO_POL {
        return E_TMOUT;
      }
      LockWait(c, m, tmout);
      return E_OK;
    }

    /** The waiting branch of sys_tloc_mtx. */
    method LockWait(c: nat, m: nat, tmout: nat)
      requires Valid() && c < 2 && 1 <= m < SLOTS && tmout < UINT_MOD && Inv(View()) && mtx[m].lock
      requires MtxBlocks(View(), c, m, tmout) && Caller(View(), c) && BoostsReady(View(), c, m, tmout)
      modifies this
      ensures Valid() && View() == TlocMtx(old(View()), c, m, tmout).0
    {
      hide Represents, LinksOk, SemOk, MtxOk, OwnOk, CpuOk, IdleOk, ReadyOk, WaitOk, Queued, AllIds,
        InsertAt, WellFormed, SlpTsk, TslpTsk, Boost, Enqueue, Without, NoDup, OwnersOk, PriPosition;
      ghost var k := View();
      var t := cur[c];
      CallerIsReady(k, c);
      OwnerIsTask(k, m);
      WaiterJoins(k, m, t);
      InsPri(MtxQ(m), t);
      BoostOwner(m, t);
      var ignored: int;
      if tmout == TMO_FEVR {
        ignored := SysSlpTsk(c);
      } else {
        ignored := SysTslpTsk(c, tmout);
      }
    }

    /** The owner inherits the priority of t if that is higher. */
    method BoostOwner(m: nat, t: nat)
      requires Valid() && LinksOk(q) && 1 <= m < SLOTS && IsTask(t) && mtx[m].lock
      requires tsk[mtx[m].owner].pri > tsk[t].pri ==> mtx[m].owner in q[Ready(tsk[mtx[m].owner].pri)]
      modifies this
      ensures Valid() && View() == Boost(old(View()), m, t)
    {
      hide Represents, AllIds, LinksOk, Reprioritize;
      var o := mtx[m].owner;
      if tsk[o].pri > tsk[t].pri {
        Requeue(o, tsk[t].pri);
      }
    }

    /** sys_unl_mtx up to the owner's own counter: hand the mutex to the first waiter or unlock it. */
    method PassOn(m: nat)
      requires Valid() && Inv(View()) && 1 <= m < SLOTS
      modifies this
      ensures Valid() && View() == PassMtx(old(View()), m)
    {
      hide Represents, LinksOk, SemOk, MtxOk, OwnOk, CpuOk, IdleOk, ReadyOk, WaitOk, Queued, AllIds,
        InsertAt, Without, WellFormed, RemoveWaits;
      ghost var k := View();
      HeadStop(Mem(next, prev), q, MtxQ(m));
      var wlink := next[Base(MtxQ(m))];
      if wlink != Base(MtxQ(m)) {
        HeadWaits(k, MtxQ(m));
        OneWait(k, MtxQ(m), wlink.t);
        UnqueuedAfterDequeue(k, MtxQ(m), wlink.t, P);
        GiveTo(m, wlink.t);
      } else {
        mtx := mtx[m := mtx[m].(lock := false)];
      }
    }

    /** The first waiter t becomes the owner, leaves the queue and is made ready. */
    method GiveTo(m: nat, t: nat)
      requires Valid() && 1 <= m < SLOTS && q[MtxQ(m)] != [] && t == q[MtxQ(m)][0] && IsTask(t)
      requires Queued(q, W, t) && !Queued(q, P, t) && RemoveWaits(q, t) == Dequeue(View(), MtxQ(m), t).q
      requires !Queued(Dequeue(View(), MtxQ(m), t).q, P, t)
      modifies this
      ensures Valid() && View() == PassMtx(old(View()), m)
    {
      hide Represents, Queued, AllIds, InsertAt, Without, RemoveWaits, OwnersOk;
      MakeOwner(m, t);
      WlinkRem(t);
      tsk := tsk[t := tsk[t].(stat := RDY)];
      tsk := tsk[t := tsk[t].(eax := E_OK)];
      var ignored := SchedIns(tsk[t].pri, t);
    }

    method MakeOwner(m: nat, t: nat)
      requires Valid() && 1 <= m < SLOTS && IsTask(t)
      modifies this
      ensures Valid()
      ensures View() == Inc(old(View()).(mtx := old(mtx)[m := old(mtx)[m].(lock := true, owner := t)]), t)
    {
      hide Represents, Queued, AllIds;
      mtx := mtx[m := mtx[m].(lock := true)];
      mtx := mtx[m := mtx[m].(owner := t)];
      tsk := tsk[t := tsk[t].(mtxcnt := tsk[t].mtxcnt + 1)];
    }

    method SysUnlMtx(c: nat, m: nat) returns (er: int)
      requires Valid() && c < 2 && Inv(View()) && Caller(View(), c)
      modifies this
      ensures Valid() && (View(), er) == UnlMtx(old(View()), c, m)
    {
      hide Represents, Inv, QShape, PassMtx, Settle, Queued;
      if m < 1 || m > SLOTS {
        return E_ID;
      }
      if m == SLOTS || !mtx[m].act {
        return E_NOEXS;
      }
      if !mtx[m].lock {
        return E_ILUSE;
      }
      if mtx[m].owner != cur[c] {
        return E_ILUSE;
      }
      ghost var k := View();
      PassKeepsReady(k, m, cur[c]);
      PassOn(m);
      SettleOwner(cur[c]);
      return E_OK;
    }

    /** sys_unl_mtx from the owner's own counter on. */
    method SettleOwner(t: nat)
      requires Valid() && LinksOk(q) && IsTask(t) && t in q[Ready(tsk[t].pri)]
      modifies this
      ensures Valid() && View() == Settle(old(View()), t)
    {
      hide Represents, LinksOk, AllIds, Reprioritize, Queued;
      tsk := tsk[t := tsk[t].(mtxcnt := (tsk[t].mtxcnt - 1) % UINT_MOD)];
      if tsk[t].mtxcnt == 0 {
        if tsk[t].bpri != tsk[t].pri {
          Requeue(t, tsk[t].bpri);
        }
      }
    }

    // ----- i386/syscall.c and i386/interrupt.c -----

    /** itron_syscall: the call as it is made inside the kernel lock, whether its guard holds or not. Only a boost needs
        its owner to be ready. */
    method ItronSyscall(c: nat, call: Call) returns (ret: int)
      requires Valid() && Inv(View()) && WellTyped(c, call) && Caller(View(), c)
      requires call.Loc? ==> BoostsReady(View(), c, call.m, call.tmout)
      modifies this
      ensures Valid() && (View(), ret) == Exec(old(View()), c, call)
    {
      hide Represents, Inv, SlpTsk, TslpTsk, DlyTsk, WupTsk, ActTsk, SigSem, PolSem, TwaiSem, TlocMtx, UnlMtx, Queued,
        BoostsReady, CreTsk, CreSem, CreMtx;
      CallerLocal(View(), c);
      match call {
        case Cre(t, p) => ret := SysCreTsk(c, t, p);
        case Act(t) =>
          if t < SLOTS { DormantIsUnlinked(View(), if t == 0 then cur[c] else t); }
          ret := SysActTsk(c, t);
        case Slp => ret := SysSlpTsk(c);
        case Tslp(tmout) => ret := SysTslpTsk(c, tmout);
        case Dly(d) => ret := SysDlyTsk(c, d);
        case Wup(t) => ret := SysWupTsk(c, t);
        case CreS(s, atr, cnt, max) => ret := SysCreSem(s, atr, cnt, max);
        case Sig(s) => ret := SysSigSem(s);
        case Pol(s) => ret := SysPolSem(s);
        case Twai(s, tmout) => ret := SysTwaiSem(c, s, tmout);
        case CreM(m, atr, ceil) => ret := SysCreMtx(m, atr, ceil);
        case Loc(m, tmout) => ret := SysTlocMtx(c, m, tmout);
        case Unl(m) => ret := SysUnlMtx(c, m);
      }
    }

    /** c_intr_syscall: the call, and the write of the return value into the caller's frame. */
    method IntrSyscall(c: nat, call: Call)
      requires Valid() && Inv(View()) && Enabled(View(), Syscall(c, call))
      modifies this
      ensures Valid() && View() == Apply(old(View()), Syscall(c, call)) && Inv(View())
    {
      hide Represents, Inv, Exec, MayLock, Caller;
      StepKeepsInv(View(), Syscall(c, call));
      CallParts(View(), c, call);
      var caller := cur[c];
      var ret := ItronSyscall(c, call);
      tsk := tsk[caller := tsk[caller].(eax := ret)];
    }

    /** c_intr_irq0: the timer interrupt. */
    method IntrTimer()
      requires Valid() && Inv(View())
      modifies this
      ensures Valid() && View() == Apply(old(View()), TimerTick) && Inv(View())
    {
      hide Represents, Inv, Tick;
      InvIsShape(View());
      StepKeepsInv(View(), TimerTick);
      SchedTimeout();
    }

    /** The dispatching part of intr_leave. */
    method IntrLeave(c: nat)
      requires Valid() && Inv(View()) && c < 2
      modifies this
      ensures Valid() && View() == Apply(old(View()), Resume(c)) && Inv(View())
    {
      hide Represents, Inv, Dispatch;
      InvIsShape(View());
      StepKeepsInv(View(), Resume(c));
      var switched := SchedNextTskCheck(c);
    }
  }
}
