/** Mutex calls keep the kernel's invariant: ownership counts, hand-over and priority inheritance. */
module KernelMutex {
  import opened Links
  import opened Timeouts
  import opened KernelState
  import opened KernelInvariant
  import opened KernelSteps

  // ----- Counting owned mutexes -----

  function Holds(x: Mtx, t: nat): nat { if x.lock && x.owner == t then 1 else 0 }

  lemma OwnedSet(mtx: seq<Mtx>, m: nat, x: Mtx, t: nat, n: nat)
    requires n < |mtx| && 1 <= m < |mtx|
    ensures Owned(mtx[m := x], t, n) == Owned(mtx, t, n) + (if m <= n then Holds(x, t) - Holds(mtx[m], t) else 0)
  {
    if n > 0 { OwnedSet(mtx, m, x, t, n - 1); }
  }

  lemma OwnedAtLeast(mtx: seq<Mtx>, m: nat, t: nat, n: nat)
    requires n < |mtx| && 1 <= m <= n
    ensures Owned(mtx, t, n) >= Holds(mtx[m], t)
  {
    if m < n { OwnedAtLeast(mtx, m, t, n - 1); }
  }

  lemma OwnedBound(mtx: seq<Mtx>, t: nat, n: nat)
    requires n < |mtx|
    ensures Owned(mtx, t, n) <= n
  {}

  lemma OwnedNone(mtx: seq<Mtx>, t: nat)
    requires |mtx| == SLOTS && Owned(mtx, t, SLOTS - 1) == 0
    ensures OwnsNone(mtx, t)
  {
    forall m: nat | 1 <= m < SLOTS && mtx[m].lock ensures mtx[m].owner != t {
      OwnedAtLeast(mtx, m, t, SLOTS - 1);
    }
  }

  /** A locked mutex has a started owner that counts it. */
  lemma OwnerCounts(k: KState, m: nat)
    requires Shape(k) && OwnOk(k.tsk, k.mtx) && 1 <= m < SLOTS && k.mtx[m].lock
    ensures IsTask(k.mtx[m].owner) && Started(k.tsk[k.mtx[m].owner])
    ensures 1 <= k.tsk[k.mtx[m].owner].mtxcnt == Owned(k.mtx, k.mtx[m].owner, SLOTS - 1)
  {
    var o := k.mtx[m].owner;
    assert OwnAt(k.tsk[o], Owned(k.mtx, o, SLOTS - 1));
    OwnedAtLeast(k.mtx, m, o, SLOTS - 1);
  }

  lemma MtxSet(k: KState, r: KState, m: nat)
    requires Shape(k) && Shape(r) && SemOk(k.tsk, k.q, k.sem) && MtxOk(k.tsk, k.q, k.mtx)
    requires 1 <= m < SLOTS && r.q == k.q && r.sem == k.sem && r.mtx == k.mtx[m := r.mtx[m]] && Alike(k.tsk, r.tsk)
    requires MtxAt(r.tsk, r.q[MtxQ(m)], r.mtx[m])
    ensures SemOk(r.tsk, r.q, r.sem) && MtxOk(r.tsk, r.q, r.mtx)
  {
    hide SemAt, MtxAt, Alike;
    forall s: nat | 1 <= s <= MAX_ID ensures SemAt(r.tsk, r.q[SemQ(s)], r.sem[s]) {
      SemKeep(k.tsk, r.tsk, k.q[SemQ(s)], k.sem[s]);
    }
    forall n: nat | 1 <= n < SLOTS ensures MtxAt(r.tsk, r.q[MtxQ(n)], r.mtx[n]) {
      if n != m { MtxKeep(k.tsk, r.tsk, k.q[MtxQ(n)], k.mtx[n]); }
    }
  }

  /** Changing only counters in the task table. */
  lemma CountKeepsRest(k: KState, t: nat, x: Tcb)
    requires Shape(k) && ReadyOk(k.tsk, k.q) && WaitOk(k.tsk, k.q) && CpuOk(k.tsk, k.cur) && IdleOk(k.tsk) && IsTask(t)
    requires x.stat == k.tsk[t].stat && x.pri == k.tsk[t].pri && x.cpu == k.tsk[t].cpu
    ensures var tsk' := k.tsk[t := x];
            ReadyOk(tsk', k.q) && WaitOk(tsk', k.q) && CpuOk(tsk', k.cur) && IdleOk(tsk') && Alike(k.tsk, tsk')
  {}

  // ----- Locking -----

  lemma LockKeepsInv(k: KState, m: nat, t: nat)
    requires Inv(k) && IsTask(t) && Active(k.tsk[t]) && 1 <= m < SLOTS && !k.mtx[m].lock
    ensures Inv(Inc(k.(mtx := k.mtx[m := k.mtx[m].(lock := true, owner := t)]), t))
  {
    hide LinksOk, MtxOk, SemOk, OwnOk, CpuOk, ReadyOk, WaitOk, WellFormed, IdleOk, AllIds, Owned, Alike;
    var r := Inc(k.(mtx := k.mtx[m := k.mtx[m].(lock := true, owner := t)]), t);
    CountKeepsRest(k, t, r.tsk[t]);
    UnlockedIsEmpty(k, m);
    MtxSet(k, r, m);
    LockOwn(k, m, t);
  }

  lemma UnlockedIsEmpty(k: KState, m: nat)
    requires Shape(k) && MtxOk(k.tsk, k.q, k.mtx) && 1 <= m < SLOTS && !k.mtx[m].lock
    ensures k.q[MtxQ(m)] == []
  {
    assert MtxAt(k.tsk, k.q[MtxQ(m)], k.mtx[m]);
  }

  lemma LockOwn(k: KState, m: nat, t: nat)
    requires Shape(k) && OwnOk(k.tsk, k.mtx) && IsTask(t) && Active(k.tsk[t]) && 1 <= m < SLOTS && !k.mtx[m].lock
    ensures OwnOk(k.tsk[t := k.tsk[t].(mtxcnt := k.tsk[t].mtxcnt + 1)], k.mtx[m := k.mtx[m].(lock := true, owner := t)])
  {
    hide Owned, QShape;
    var x := k.mtx[m].(lock := true, owner := t);
    var tsk' := k.tsk[t := k.tsk[t].(mtxcnt := k.tsk[t].mtxcnt + 1)];
    forall u: nat | IsTask(u) ensures OwnAt(tsk'[u], Owned(k.mtx[m := x], u, SLOTS - 1)) {
      assert OwnAt(k.tsk[u], Owned(k.mtx, u, SLOTS - 1));
      OwnedSet(k.mtx, m, x, u, SLOTS - 1);
    }
  }

  // ----- Waiting for a lock, with priority inheritance -----

  ghost predicate MtxBlocks(k: KState, c: nat, m: nat, tmout: nat)
    requires Shape(k) && c < 2
  {
    && 1 <= m < SLOTS && k.mtx[m].act && k.mtx[m].lock && k.mtx[m].owner != k.cur[c]
    && !(k.mtx[m].atr % 4 != 0 && k.tsk[k.cur[c]].bpri > k.mtx[m].ceil) && tmout != TMO_POL
  }

  ghost predicate Boosted(k: KState, m: nat, t: nat, r: KState)
    requires Shape(k) && Shape(r) && IsTask(t) && 1 <= m < SLOTS && k.mtx[m].lock
  {
    && r.mtx == k.mtx && r.sem == k.sem && r.cur == k.cur && r.tsk[t] == k.tsk[t]
    && r.q[MtxQ(m)] == k.q[MtxQ(m)]
    && r.tsk[k.mtx[m].owner].pri <= k.tsk[t].pri
    && SameBut(k.tsk, r.tsk, k.mtx[m].owner)
  }

  /** Raising the owner keeps the invariant, leaves the waiters' places as they are, and makes the owner at least as
      urgent as the task about to wait. */
  lemma BoostKeepsInv(k: KState, m: nat, t: nat)
    requires Inv(k) && IsTask(t) && 1 <= m < SLOTS && k.mtx[m].lock && k.mtx[m].owner != t
    requires Boosts(k, m, t) ==> Active(k.tsk[k.mtx[m].owner])
    ensures Inv(Boost(k, m, t)) && Boosted(k, m, t, Boost(k, m, t))
  {
    hide LinksOk, MtxOk, SemOk, OwnOk, CpuOk, ReadyOk, WaitOk, WellFormed, IdleOk, AllIds, Owned, Reprioritize,
      InsertAt, Without;
    var o, p := k.mtx[m].owner, k.tsk[t].pri;
    if k.tsk[o].pri > p {
      var r := Reprioritize(k, o, p);
      OwnerCounts(k, m);
      ReprioritizeEffect(k, o, p);
      RaiseKeepsBase(k, o, p, r);
      OwnKeep(k.tsk, k.mtx, o, r.tsk[o]);
      assert r.q[Tmo] == k.q[Tmo];
    }
  }

  lemma BoostMayQueue(k: KState, m: nat, t: nat)
    requires Inv(k) && IsTask(t) && 1 <= m < SLOTS && k.mtx[m].lock && k.mtx[m].owner != t
    requires Boosts(k, m, t) ==> Active(k.tsk[k.mtx[m].owner])
    ensures var r := Boost(k, m, t);
            Shape(r) && MayQueue(r, t, MtxQ(m), MtxPlace(k, m, t))
  {
    hide LinksOk, SemOk, OwnOk, CpuOk, ReadyOk, WaitOk, WellFormed, IdleOk, Owned, Boost, Sorted, NoneAbove;
    BoostKeepsInv(k, m, t);
    assert MtxAt(k.tsk, k.q[MtxQ(m)], k.mtx[m]);
    PriPositionFits(k.tsk, k.q[MtxQ(m)], t);
    if Boosts(k, m, t) {
      ActiveIsUnlinked(k, k.mtx[m].owner);
      OwnerNotWaiting(k, m);
    } else {
      NoBoost(k, m, t);
    }
  }

  lemma NoBoost(k: KState, m: nat, t: nat)
    requires Shape(k) && IsTask(t) && 1 <= m < SLOTS && k.mtx[m].lock && !Boosts(k, m, t)
    ensures Boost(k, m, t) == k
  {}

  lemma OwnerNotWaiting(k: KState, m: nat)
    requires Shape(k) && 1 <= m < SLOTS && !Queued(k.q, W, k.mtx[m].owner)
    ensures forall j :: 0 <= j < |k.q[MtxQ(m)]| ==> k.q[MtxQ(m)][j] != k.mtx[m].owner
  {
    forall j | 0 <= j < |k.q[MtxQ(m)]| ensures k.q[MtxQ(m)][j] != k.mtx[m].owner {
      assert k.q[MtxQ(m)][j] in k.q[MtxQ(m)];
    }
  }

  /** Queueing the waiter and moving the owner between ready queues commute. */
  lemma BoostCommutes(k: KState, o: nat, p: Pri, h: Head, i: nat, t: nat)
    requires Shape(k) && IsTask(o) && IsTask(t) && o != t && ValidHead(h) && KindOf(h) == W && i <= |k.q[h]|
    ensures var r := Reprioritize(k, o, p);
            && r.q[h] == k.q[h] && r.cur == k.cur && r.tsk[t] == k.tsk[t]
            && Reprioritize(Enqueue(k, h, i, t), o, p) == Enqueue(r, h, i, t)
  {
    hide AllIds, InsertAt, Without;
    var x, from, to := InsertAt(k.q[h], i, t), Ready(k.tsk[o].pri), Ready(p);
    var s := Without(k.q[from], o);
    var q := k.q[from := s];
    var y := InsertAt(q[to], |q[to]|, o);
    UpdatesCommute(k.q, h, x, from, s);
    UpdatesCommute(q, h, x, to, y);
    var r := Reprioritize(k, o, p);
    assert r == SetTsk(k, o, k.tsk[o].(pri := p)).(q := q[to := y]);
    assert r.q[h] == k.q[h];
    assert Reprioritize(Enqueue(k, h, i, t), o, p).q == k.q[h := x][from := s][to := y];
    assert Enqueue(r, h, i, t).q == q[to := y][h := x];
  }

  lemma UpdatesCommute(q: Queues, g: Head, x: seq<nat>, h: Head, y: seq<nat>)
    requires g != h
    ensures q[g := x][h := y] == q[h := y][g := x]
  {}

  lemma BoostThenQueue(k: KState, m: nat, i: nat, t: nat)
    requires Shape(k) && IsTask(t) && 1 <= m < SLOTS && k.mtx[m].lock && k.mtx[m].owner != t && i <= |k.q[MtxQ(m)]|
    ensures var r := Boost(k, m, t);
            && r.q[MtxQ(m)] == k.q[MtxQ(m)] && r.cur == k.cur && r.tsk[t] == k.tsk[t]
            && Boost(Enqueue(k, MtxQ(m), i, t), m, t) == Enqueue(r, MtxQ(m), i, t)
  {
    hide AllIds, InsertAt, Reprioritize;
    BoostCommutes(k, k.mtx[m].owner, k.tsk[t].pri, MtxQ(m), i, t);
  }

  /** Queueing, then boosting the owner, then sleeping is boosting first and then parking. */
  lemma TlocIsPark(k: KState, c: nat, m: nat, tmout: nat)
    requires Shape(k) && c < 2 && MtxBlocks(k, c, m, tmout) && k.tsk[k.cur[c]].wupcnt == 0 && tmout < UINT_MOD
    ensures var t := k.cur[c];
            var r := Boost(k, m, t);
            var i := MtxPlace(k, m, t);
            && i <= |r.q[MtxQ(m)]|
            && TlocMtx(k, c, m, tmout) == (Resched(Park(r, t, Some((MtxQ(m), i)), Limit(tmout))), E_OK)
  {
    hide AllIds, InsertAt, Without, Reprioritize, Enqueue, Park, Wait, Boost;
    var t := k.cur[c];
    BoostThenQueue(k, m, MtxPlace(k, m, t), t);
    WaitIsPark(Boost(k, m, t), c, MtxQ(m), MtxPlace(k, m, t), tmout);
  }

  /** Waiting for a lock does no harm if no wake-up request is queued for the caller and an owner that is boosted is
      ready. */
  ghost predicate MayLock(k: KState, c: nat, m: nat, tmout: nat)
    requires Shape(k) && c < 2
  {
    MtxBlocks(k, c, m, tmout) ==>
      && MaySleep(k, c) && k.tsk[k.cur[c]].wupcnt == 0
      && (Boosts(k, m, k.cur[c]) ==> Active(k.tsk[k.mtx[m].owner]))
  }

  lemma TlocKeepsInv(k: KState, c: nat, m: nat, tmout: nat)
    requires Inv(k) && Caller(k, c) && tmout < UINT_MOD && MayLock(k, c, m, tmout)
    ensures Inv(TlocMtx(k, c, m, tmout).0)
  {
    hide LinksOk, MtxOk, SemOk, OwnOk, CpuOk, ReadyOk, WaitOk, WellFormed, IdleOk, AllIds, Park, Boost, MayQueue,
      Wait, Enqueue, Reprioritize, SameBut;
    var t := k.cur[c];
    if MtxBlocks(k, c, m, tmout) {
      TlocIsPark(k, c, m, tmout);
      BoostKeepsInv(k, m, t);
      BoostMayQueue(k, m, t);
      ParkKeepsInv(Boost(k, m, t), t, Some((MtxQ(m), MtxPlace(k, m, t))), Limit(tmout));
    } else if 1 <= m < SLOTS && k.mtx[m].act && !k.mtx[m].lock {
      LockKeepsInv(k, m, t);
    }
  }

  // ----- Unlocking -----

  /** The state in the middle of sys_unl_mtx: the first waiter n owns the mutex but is still queued. */
  ghost function HandOver(k: KState, m: nat, n: nat): (r: KState)
    requires Shape(k) && IsTask(n) && 1 <= m < SLOTS
    ensures Shape(r)
  {
    Inc(k.(mtx := k.mtx[m := k.mtx[m].(lock := true, owner := n)]), n)
  }

  lemma HandOverKeepsBase(k: KState, m: nat)
    requires BaseInv(k) && 1 <= m < SLOTS && k.q[MtxQ(m)] != []
    ensures var n := k.q[MtxQ(m)][0]; IsTask(n) && BaseInv(HandOver(k, m, n)) && k.tsk[n].stat == WAI
  {
    hide LinksOk, MtxOk, SemOk, CpuOk, ReadyOk, WaitOk, IdleOk, AllIds, Alike;
    HeadIsTask(k, MtxQ(m));
    QueueHead(k, MtxQ(m));
    var n := k.q[MtxQ(m)][0];
    var r := HandOver(k, m, n);
    CountKeepsRest(k, n, r.tsk[n]);
    HeadIsMostUrgent(k, m, r);
    MtxSet(k, r, m);
  }

  /** The queue of a mutex is ordered, so its head is at least as urgent as everyone behind it. */
  lemma HeadIsMostUrgent(k: KState, m: nat, r: KState)
    requires Shape(k) && Shape(r) && MtxOk(k.tsk, k.q, k.mtx) && 1 <= m < SLOTS && k.q[MtxQ(m)] != []
    requires r.q == k.q && Alike(k.tsk, r.tsk) && r.mtx[m].lock && r.mtx[m].owner == k.q[MtxQ(m)][0]
    ensures MtxAt(r.tsk, r.q[MtxQ(m)], r.mtx[m])
  {
    assert MtxAt(k.tsk, k.q[MtxQ(m)], k.mtx[m]);
    SortedAlike(k.tsk, r.tsk, k.q[MtxQ(m)]);
  }

  lemma PassIsRelease(k: KState, m: nat)
    requires Shape(k) && LinksOk(k.q) && WaitOk(k.tsk, k.q) && 1 <= m < SLOTS && k.q[MtxQ(m)] != []
    requires IsTask(k.q[MtxQ(m)][0]) && k.q[MtxQ(m)][0] !in k.q[Tmo]
    ensures var n := k.q[MtxQ(m)][0];
            var h := HandOver(k, m, n);
            var r := PassMtx(k, m);
            && ReleaseEffect(h, n, r) && r.tsk[n] == h.tsk[n].(stat := RDY, eax := E_OK)
            && r.delta == k.delta && r.q[Tmo] == k.q[Tmo]
  {
    hide NoDup, InsertAt, Without, LinksOk, AllIds, SchedIns, Dequeue, WaitOk;
    var n := k.q[MtxQ(m)][0];
    var h := HandOver(k, m, n);
    OnlyQueue(h, MtxQ(m), n);
    DequeueEffect(h, MtxQ(m), n);
    var k1 := SetEax(SetStat(Dequeue(h, MtxQ(m), n), n, RDY), n, E_OK);
    SchedInsEffect(k1, n);
    var r := SchedIns(k1, n);
    forall g | ValidHead(g) ensures r.q[g] == Released(h, n, g) {
      if g == MtxQ(m) { assert r.q[g] == k1.q[g]; }
    }
  }

  /** Ownership counts after handing mutex m from t to n, or freeing it: only t is still counted once too often. */
  lemma PassOwn(k: KState, m: nat, t: nat, r: KState)
    requires Shape(k) && OwnOk(k.tsk, k.mtx) && IsTask(t) && 1 <= m < SLOTS && k.mtx[m].lock && k.mtx[m].owner == t
    requires Shape(r) && r.mtx == k.mtx[m := r.mtx[m]]
    requires r.mtx[m].lock ==> r.mtx[m].owner != t
    requires forall u: nat :: IsTask(u) ==>
      && r.tsk[u].mtxcnt == k.tsk[u].mtxcnt + Holds(r.mtx[m], u)
      && r.tsk[u].pri == k.tsk[u].pri && r.tsk[u].bpri == k.tsk[u].bpri
      && (Started(r.tsk[u]) <==> Started(k.tsk[u]) || Holds(r.mtx[m], u) == 1)
    ensures r.tsk[t].mtxcnt >= 1
    ensures forall u: nat :: IsTask(u) && u != t ==> OwnAt(r.tsk[u], Owned(r.mtx, u, SLOTS - 1))
    ensures r.tsk[t].mtxcnt - 1 == Owned(r.mtx, t, SLOTS - 1)
  {
    hide Owned, QShape;
    forall u: nat | IsTask(u)
      ensures Owned(r.mtx, u, SLOTS - 1) == Owned(k.mtx, u, SLOTS - 1) + Holds(r.mtx[m], u) - Holds(k.mtx[m], u)
      ensures OwnAt(k.tsk[u], Owned(k.mtx, u, SLOTS - 1))
    {
      OwnedSet(k.mtx, m, r.mtx[m], u, SLOTS - 1);
    }
    OwnedAtLeast(k.mtx, m, t, SLOTS - 1);
  }

  /** The first waiter for mutex m, if there is one, has no timeout running: unl_mtx does not cancel it. */
  ghost predicate MayPass(k: KState, m: nat)
    requires Shape(k) && 1 <= m < SLOTS
  {
    k.q[MtxQ(m)] != [] ==> k.q[MtxQ(m)][0] !in k.q[Tmo]
  }

  lemma PassKeepsBase(k: KState, m: nat)
    requires Inv(k) && 1 <= m < SLOTS && k.mtx[m].lock && Active(k.tsk[k.mtx[m].owner]) && MayPass(k, m)
    ensures var r := PassMtx(k, m);
            && BaseInv(r) && WellFormed(r.q[Tmo], r.delta)
            && r.mtx == k.mtx[m := r.mtx[m]] && r.cur == k.cur && r.sem == k.sem
            && (r.mtx[m].lock ==> r.mtx[m].owner != k.mtx[m].owner)
            && (forall u: nat :: IsTask(u) ==>
                  && r.tsk[u].mtxcnt == k.tsk[u].mtxcnt + Holds(r.mtx[m], u)
                  && r.tsk[u].pri == k.tsk[u].pri && r.tsk[u].bpri == k.tsk[u].bpri && r.tsk[u].cpu == k.tsk[u].cpu
                  && (Active(r.tsk[u]) <==> Active(k.tsk[u]) || Holds(r.mtx[m], u) == 1)
                  && (Started(r.tsk[u]) <==> Started(k.tsk[u]) || Holds(r.mtx[m], u) == 1))
  {
    hide LinksOk, MtxOk, SemOk, OwnOk, CpuOk, ReadyOk, WaitOk, WellFormed, IdleOk, AllIds, Owned, InsertAt, Without,
      NoDup, Dequeue, SchedIns, Alike;
    if k.q[MtxQ(m)] != [] {
      HandOverKeepsBase(k, m);
      PassIsRelease(k, m);
      var n := k.q[MtxQ(m)][0];
      ReleaseKeepsBase(HandOver(k, m, n), n, PassMtx(k, m));
    } else {
      FreeKeepsObjects(k, m);
    }
  }

  lemma FreeKeepsObjects(k: KState, m: nat)
    requires Shape(k) && SemOk(k.tsk, k.q, k.sem) && MtxOk(k.tsk, k.q, k.mtx) && 1 <= m < SLOTS && k.q[MtxQ(m)] == []
    ensures var r := k.(mtx := k.mtx[m := k.mtx[m].(lock := false)]);
            SemOk(r.tsk, r.q, r.sem) && MtxOk(r.tsk, r.q, r.mtx)
  {
    MtxSet(k, k.(mtx := k.mtx[m := k.mtx[m].(lock := false)]), m);
  }

  lemma SettleFrame(k: KState, t: nat)
    requires Shape(k) && IsTask(t)
    ensures var r := Settle(k, t);
            && r.delta == k.delta && r.tsk == k.tsk[t := k.tsk[t].(mtxcnt := r.tsk[t].mtxcnt, pri := r.tsk[t].pri)]
            && forall h {:trigger r.q[h]} :: ValidHead(h) && KindOf(h) != P ==> r.q[h] == k.q[h]
  {
    hide InsertAt, Without, Reprioritize, AllIds, OwnersOk;
    var x := k.tsk[t];
    ReprioritizeEffect(SetTsk(k, t, x.(mtxcnt := (x.mtxcnt - 1) % UINT_MOD)), t, x.bpri);
  }

  lemma SettleEffect(k: KState, t: nat)
    requires Shape(k) && IsTask(t) && 1 <= k.tsk[t].mtxcnt <= UINT_MOD
    ensures var r, x := Settle(k, t), k.tsk[t];
            && r.mtx == k.mtx && r.q[Tmo] == k.q[Tmo] && r.delta == k.delta
            && r.tsk == k.tsk[t := x.(mtxcnt := x.mtxcnt - 1, pri := if x.mtxcnt == 1 then x.bpri else x.pri)]
  {
    hide Reprioritize, InsertAt, Without, AllIds;
    var x := k.tsk[t];
    ReprioritizeEffect(SetTsk(k, t, x.(mtxcnt := x.mtxcnt - 1)), t, x.bpri);
  }

  lemma SettleKeepsBase(k: KState, t: nat)
    requires BaseInv(k) && IsTask(t) && Active(k.tsk[t])
    requires 1 <= k.tsk[t].mtxcnt < UINT_MOD && k.tsk[t].mtxcnt - 1 == Owned(k.mtx, t, SLOTS - 1)
    ensures BaseInv(Settle(k, t))
  {
    hide BaseInv, Owned, Reprioritize, AllIds;
    BaseIsShape(k);
    var x := k.tsk[t];
    var k1 := SetTsk(k, t, x.(mtxcnt := x.mtxcnt - 1));
    TouchKeepsInv(k, t, k1.tsk[t]);
    if x.mtxcnt == 1 && x.bpri != x.pri {
      OwnedNone(k.mtx, t);
      ReprioritizeEffect(k1, t, x.bpri);
      RaiseKeepsBase(k1, t, x.bpri, Settle(k, t));
    }
  }

  lemma BaseIsShape(k: KState)
    requires BaseInv(k)
    ensures Shape(k)
  {}

  lemma SettleKeepsInv(k: KState, t: nat)
    requires BaseInv(k) && WellFormed(k.q[Tmo], k.delta) && IsTask(t) && Active(k.tsk[t])
    requires 1 <= k.tsk[t].mtxcnt && k.tsk[t].mtxcnt - 1 == Owned(k.mtx, t, SLOTS - 1)
    requires forall u: nat :: IsTask(u) && u != t ==> OwnAt(k.tsk[u], Owned(k.mtx, u, SLOTS - 1))
    ensures Inv(Settle(k, t))
  {
    hide BaseInv, WellFormed, Owned, Settle, AllIds;
    BaseIsShape(k);
    OwnedBound(k.mtx, t, SLOTS - 1);
    SettleEffect(k, t);
    SettleKeepsBase(k, t);
  }

  /** unl_mtx succeeds and passes mutex m on. */
  ghost predicate Unlocks(k: KState, c: nat, m: nat)
    requires Shape(k) && c < 2
  {
    1 <= m < SLOTS && k.mtx[m].act && k.mtx[m].lock && k.mtx[m].owner == k.cur[c]
  }

  lemma UnlKeepsInv(k: KState, c: nat, m: nat)
    requires Inv(k) && Caller(k, c) && (Unlocks(k, c, m) ==> MayPass(k, m))
    ensures Inv(UnlMtx(k, c, m).0)
  {
    hide LinksOk, MtxOk, SemOk, OwnOk, CpuOk, ReadyOk, WaitOk, WellFormed, IdleOk, AllIds, Owned, PassMtx,
      Settle;
    var t := k.cur[c];
    if Unlocks(k, c, m) {
      PassKeepsBase(k, m);
      var r := PassMtx(k, m);
      PassOwn(k, m, t, r);
      SettleKeepsInv(r, t);
    }
  }
}
