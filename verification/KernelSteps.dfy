/** Every service call, tick and dispatch keeps the kernel's invariant. */
module KernelSteps {
  import opened Links
  import opened Timeouts
  import opened KernelState
  import opened KernelInvariant

  // ----- Changes that touch no queue -----

  /** Fields the invariant does not look at, and RUN to RDY. */
  lemma TouchKeepsInv(k: KState, t: nat, x: Tcb)
    requires BaseInv(k) && IsTask(t)
    requires x.pri == k.tsk[t].pri && x.bpri == k.tsk[t].bpri && x.cpu == k.tsk[t].cpu
    requires x.stat == k.tsk[t].stat || (Active(k.tsk[t]) && x.stat == RDY)
    ensures BaseInv(SetTsk(k, t, x))
    ensures x.mtxcnt == k.tsk[t].mtxcnt && OwnOk(k.tsk, k.mtx) ==> OwnOk(SetTsk(k, t, x).tsk, k.mtx)
  {
    hide LinksOk, SemOk, MtxOk, Owned;
    ObjectsKeep(k, SetTsk(k, t, x));
  }

  // ----- Parking calls -----

  ghost predicate Caller(k: KState, c: nat)
    requires Shape(k)
  {
    c < 2 && Active(k.tsk[k.cur[c]])
  }

  /** The caller may go to sleep: it is not an idle task. */
  ghost predicate MaySleep(k: KState, c: nat)
    requires Shape(k) && c < 2
  {
    k.cur[c] != IDLE0 && k.cur[c] != IDLE1
  }

  lemma WupcntKeepsInv(k: KState, t: nat, n: nat)
    requires Inv(k) && IsTask(t)
    ensures Inv(SetTsk(k, t, k.tsk[t].(wupcnt := n)))
  {
    hide LinksOk, SemOk, MtxOk, OwnOk, CpuOk, ReadyOk, WaitOk, WellFormed, IdleOk;
    TouchKeepsInv(k, t, k.tsk[t].(wupcnt := n));
  }

  lemma SlpKeepsInv(k: KState, c: nat)
    requires Inv(k) && Caller(k, c) && (k.tsk[k.cur[c]].wupcnt == 0 ==> MaySleep(k, c))
    ensures Inv(SlpTsk(k, c).0)
  {
    hide LinksOk, SemOk, MtxOk, OwnOk, CpuOk, ReadyOk, WaitOk, WellFormed, IdleOk, QShape;
    var t := k.cur[c];
    if k.tsk[t].wupcnt >= 1 {
      WupcntKeepsInv(k, t, k.tsk[t].wupcnt - 1);
    } else {
      ParkKeepsInv(k, t, None, None);
    }
  }

  lemma TslpKeepsInv(k: KState, c: nat, tmout: nat)
    requires Inv(k) && Caller(k, c) && tmout < UINT_MOD
      && (k.tsk[k.cur[c]].wupcnt == 0 ==> tmout >= 1 && MaySleep(k, c))
    ensures Inv(TslpTsk(k, c, tmout).0)
  {
    hide LinksOk, SemOk, MtxOk, OwnOk, CpuOk, ReadyOk, WaitOk, WellFormed, IdleOk, QShape;
    var t := k.cur[c];
    if k.tsk[t].wupcnt >= 1 {
      WupcntKeepsInv(k, t, k.tsk[t].wupcnt - 1);
    } else {
      ParkKeepsInv(k, t, None, Some(tmout));
    }
  }

  lemma DlyKeepsInv(k: KState, c: nat, dlytim: nat)
    requires Inv(k) && Caller(k, c) && dlytim < UINT_MOD && (dlytim != 0 ==> MaySleep(k, c))
    ensures Inv(DlyTsk(k, c, dlytim).0)
  {
    hide LinksOk, SemOk, MtxOk, OwnOk, CpuOk, ReadyOk, WaitOk, WellFormed, IdleOk, QShape;
    if dlytim != 0 { ParkKeepsInv(k, k.cur[c], None, Some(dlytim)); }
  }

  /** The timeout of an object wait. */
  function Limit(tmout: nat): Option<nat> { if tmout == TMO_FEVR then None else Some(tmout) }

  /** Waiting for an object is parking the caller in the object's queue. */
  lemma WaitIsPark(k: KState, c: nat, h: Head, i: nat, tmout: nat)
    requires Shape(k) && c < 2 && k.tsk[k.cur[c]].wupcnt == 0 && tmout < UINT_MOD
    requires ValidHead(h) && KindOf(h) == W && i <= |k.q[h]|
    ensures Wait(Enqueue(k, h, i, k.cur[c]), c, tmout)
         == Resched(Park(k, k.cur[c], Some((h, i)), Limit(tmout)))
  {
    hide QShape, InsertAt, Without;
  }

  lemma TakeSemKeepsInv(k: KState, s: nat)
    requires Inv(k) && 1 <= s <= MAX_ID && k.sem[s].cnt > 0
    ensures Inv(TakeSem(k, s))
  {
    hide LinksOk, MtxOk, OwnOk, CpuOk, ReadyOk, WaitOk, WellFormed, IdleOk, Sorted;
    var r := TakeSem(k, s);
    forall u: nat | 1 <= u <= MAX_ID ensures SemAt(r.tsk, r.q[SemQ(u)], r.sem[u]) {
      assert SemAt(k.tsk, k.q[SemQ(u)], k.sem[u]);
    }
  }

  lemma PolKeepsInv(k: KState, s: nat)
    requires Inv(k)
    ensures Inv(PolSem(k, s).0)
  {
    hide LinksOk, MtxOk, SemOk, OwnOk, CpuOk, ReadyOk, WaitOk, WellFormed, IdleOk, TakeSem;
    if 1 <= s <= MAX_ID && k.sem[s].act && k.sem[s].cnt != 0 { TakeSemKeepsInv(k, s); }
  }

  /** A semaphore wait that finds the count 0 blocks the caller. */
  ghost predicate SemBlocks(k: KState, s: nat, tmout: nat)
    requires Shape(k)
  {
    1 <= s <= MAX_ID && k.sem[s].act && k.sem[s].cnt == 0 && tmout != TMO_POL
  }

  ghost function SemPlace(k: KState, c: nat, s: nat): nat
    requires Shape(k) && c < 2 && 1 <= s <= MAX_ID
  {
    if k.sem[s].atr == 0 then |k.q[SemQ(s)]| else PriPosition(k.tsk, k.q[SemQ(s)], k.tsk[k.cur[c]].pri)
  }

  lemma SemMayQueue(k: KState, c: nat, s: nat, tmout: nat)
    requires Shape(k) && SemOk(k.tsk, k.q, k.sem) && c < 2 && SemBlocks(k, s, tmout)
    ensures MayQueue(k, k.cur[c], SemQ(s), SemPlace(k, c, s))
  {
    hide FitsAt, Sorted;
    assert SemAt(k.tsk, k.q[SemQ(s)], k.sem[s]);
    if k.sem[s].atr != 0 { PriPositionFits(k.tsk, k.q[SemQ(s)], k.cur[c]); }
  }

  lemma TwaiIsPark(k: KState, c: nat, s: nat, tmout: nat)
    requires Shape(k) && c < 2 && SemBlocks(k, s, tmout) && k.tsk[k.cur[c]].wupcnt == 0 && tmout < UINT_MOD
    ensures TwaiSem(k, c, s, tmout)
         == (Resched(Park(k, k.cur[c], Some((SemQ(s), SemPlace(k, c, s))), Limit(tmout))), E_TMOUT)
  {
    hide QShape, InsertAt, Without, Park, Wait;
    WaitIsPark(k, c, SemQ(s), SemPlace(k, c, s), tmout);
  }

  lemma TwaiKeepsInv(k: KState, c: nat, s: nat, tmout: nat)
    requires Inv(k) && Caller(k, c) && tmout < UINT_MOD
    requires SemBlocks(k, s, tmout) ==> MaySleep(k, c) && k.tsk[k.cur[c]].wupcnt == 0
    ensures Inv(TwaiSem(k, c, s, tmout).0)
  {
    hide LinksOk, MtxOk, SemOk, OwnOk, CpuOk, ReadyOk, WaitOk, WellFormed, IdleOk, Park, Wait, QShape, TakeSem,
      MayQueue;
    if SemBlocks(k, s, tmout) {
      SemMayQueue(k, c, s, tmout);
      TwaiIsPark(k, c, s, tmout);
      ParkKeepsInv(k, k.cur[c], Some((SemQ(s), SemPlace(k, c, s))), Limit(tmout));
    } else if 1 <= s <= MAX_ID && k.sem[s].act && k.sem[s].cnt != 0 {
      TakeSemKeepsInv(k, s);
    }
  }

  // ----- Calls that make a task ready -----

  lemma QueueHead(k: KState, h: Head)
    requires Shape(k) && WaitOk(k.tsk, k.q) && ValidHead(h) && KindOf(h) != P && k.q[h] != []
    ensures IsTask(k.q[h][0]) && k.q[h][0] in k.q[h] && k.tsk[k.q[h][0]].stat == WAI
  {}

  lemma HeadIsTask(k: KState, h: Head)
    requires Shape(k) && ValidHead(h) && k.q[h] != []
    ensures IsTask(k.q[h][0])
  {}

  /** A task linked in one object queue is in no other, so removing it from all of them is removing it from that one. */
  lemma OnlyQueue(k: KState, h: Head, t: nat)
    requires Shape(k) && LinksOk(k.q) && ValidHead(h) && KindOf(h) == W && t in k.q[h]
    ensures forall g :: ValidHead(g) && KindOf(g) == W && g != h ==> Without(k.q[g], t) == k.q[g]
  {
    forall g | ValidHead(g) && KindOf(g) == W && g != h ensures Without(k.q[g], t) == k.q[g] {
      assert t !in k.q[g];
    }
  }

  lemma TimeoutRemEffect(k: KState, t: nat)
    requires Shape(k) && WellFormed(k.q[Tmo], k.delta)
    ensures var r := TimeoutRemIfExist(k, t);
            && r == k.(q := r.q, delta := r.delta)
            && (forall h {:trigger r.q[h]} :: ValidHead(h) ==>
                  r.q[h] == if h == Tmo then Without(k.q[h], t) else k.q[h])
            && WellFormed(r.q[Tmo], r.delta)
            && KeptBut(k.q[Tmo], k.delta, r.q[Tmo], r.delta, t)
  {
    hide WellFormed, Removed, Remaining, NoDup, Sum, Without;
    if t in k.q[Tmo] { RemoveExact(k.q[Tmo], k.delta, t); RemovedIsWithout(k.q[Tmo], k.delta, t); }
    else { NotThere(k.q[Tmo], t); WellFormedInRange(k.q[Tmo], k.delta); }
  }

  lemma NotThere(s: seq<nat>, t: nat)
    requires t !in s
    ensures Without(s, t) == s
  {}

  lemma WellFormedInRange(s: seq<nat>, d: seq<nat>)
    requires WellFormed(s, d)
    ensures InRange(s, d)
  {}

  lemma RemovedIsWithout(s: seq<nat>, d: seq<nat>, t: nat)
    requires InRange(s, d) && t in s
    ensures Removed(s, d, t).0 == Without(s, t)
  {}

  lemma SchedInsEffect(k: KState, t: nat)
    requires Shape(k) && IsTask(t)
    ensures var r := SchedIns(k, t);
            && r == k.(q := r.q)
            && (forall h {:trigger r.q[h]} :: ValidHead(h) ==>
                  r.q[h] == if h == Ready(k.tsk[t].pri) then InsertAt(k.q[h], |k.q[h]|, t) else k.q[h])
  {
    hide InsertAt;
  }

  lemma DequeueEffect(k: KState, h: Head, t: nat)
    requires Shape(k) && ValidHead(h)
    ensures var r := Dequeue(k, h, t);
            && r == k.(q := r.q)
            && (forall g {:trigger r.q[g]} :: ValidHead(g) ==> r.q[g] == if g == h then Without(k.q[g], t) else k.q[g])
  {}

  lemma ActIsRelease(k: KState, t: nat)
    requires Shape(k) && WaitOk(k.tsk, k.q) && IsTask(t) && k.tsk[t].stat == DMT
    ensures ReleaseEffect(k, t, SchedIns(SetStat(k, t, RDY), t))
  {
    ActiveIsUnlinked(k, t);
    hide QShape, InsertAt, WaitOk;
    forall h | ValidHead(h) && KindOf(h) != P ensures Without(k.q[h], t) == k.q[h] {
      assert t !in k.q[h];
    }
  }

  lemma ReleaseKeepsOwn(k: KState, t: nat, r: KState)
    requires Shape(k) && OwnOk(k.tsk, k.mtx) && IsTask(t) && !Active(k.tsk[t]) && ReleaseEffect(k, t, r)
    requires r.tsk[t].bpri == k.tsk[t].bpri && r.tsk[t].mtxcnt == k.tsk[t].mtxcnt
    ensures OwnOk(r.tsk, r.mtx)
  {
    hide Owned, QShape, InsertAt, Without;
    NoMutexBasePri(k, t);
    OwnKeep(k.tsk, k.mtx, t, r.tsk[t]);
  }

  lemma ActKeepsInv(k: KState, c: nat, id: nat)
    requires Inv(k) && Caller(k, c)
    ensures Inv(ActTsk(k, c, id).0)
  {
    hide LinksOk, MtxOk, SemOk, OwnOk, CpuOk, ReadyOk, WaitOk, WellFormed, IdleOk, QShape, InsertAt, Without;
    var t := if id == 0 then k.cur[c] else id;
    if t >= SLOTS {
    } else if k.tsk[t].stat == DMT {
      var r := ActTsk(k, c, id).0;
      ActIsRelease(k, t);
      ReleaseKeepsBase(k, t, r);
      ReleaseKeepsOwn(k, t, r);
    } else if k.tsk[t].stat != NON && k.tsk[t].actcnt < TMAX_ACTCNT {
      TouchKeepsInv(k, t, k.tsk[t].(actcnt := k.tsk[t].actcnt + 1));
    }
  }

  lemma NotQueued(k: KState, t: nat)
    requires Shape(k) && !Queued(k.q, W, t)
    ensures forall h :: ValidHead(h) && KindOf(h) == W ==> Without(k.q[h], t) == k.q[h]
  {
    forall h | ValidHead(h) && KindOf(h) == W ensures Without(k.q[h], t) == k.q[h] {
      assert t !in k.q[h];
    }
  }

  lemma WupIs(k: KState, c: nat, t: nat)
    requires Shape(k) && c < 2 && IsTask(t) && k.tsk[t].stat == WAI
    ensures WupTsk(k, c, t).0
         == Resched(TimeoutRemIfExist(SchedIns(SetStat(SetStat(k, t, RDY), k.cur[c], RDY), t), t))
  {}

  lemma WupIsRelease(k: KState, c: nat, t: nat)
    requires Shape(k) && LinksOk(k.q) && WellFormed(k.q[Tmo], k.delta)
    requires Caller(k, c) && IsTask(t) && k.tsk[t].stat == WAI && !Queued(k.q, W, t)
    ensures ReleasedAs(SetStat(k, k.cur[c], RDY), t, WupTsk(k, c, t).0, k.tsk[t].(stat := RDY))
  {
    hide KeptBut, NoDup, InsertAt, WellFormed, TimeoutRemIfExist, Without, LinksOk, AllIds, Queued, SchedIns, WupTsk;
    NotQueued(k, t);
    WupIs(k, c, t);
    var k1 := SetStat(SetStat(k, t, RDY), k.cur[c], RDY);
    SchedInsEffect(k1, t);
    var k2 := SchedIns(k1, t);
    TimeoutRemEffect(k2, t);
    var r := TimeoutRemIfExist(k2, t);
    forall h | ValidHead(h) ensures r.q[h] == Released(k, t, h) {
      if h == Tmo { assert k2.q[h] == k.q[h]; }
    }
  }

  lemma WupKeepsInv(k: KState, c: nat, id: nat)
    requires Inv(k) && Caller(k, c) && id <= SLOTS
    requires IsTask(id) && k.tsk[id].stat == WAI ==> !Queued(k.q, W, id)
    ensures Inv(WupTsk(k, c, id).0)
  {
    hide LinksOk, MtxOk, SemOk, OwnOk, CpuOk, ReadyOk, WaitOk, WellFormed, IdleOk, QShape, InsertAt, Without, Queued,
      TimeoutRemIfExist;
    var t := if id == 0 then k.cur[c] else id;
    if t >= SLOTS {
    } else if k.tsk[t].stat == WAI {
      var r := WupTsk(k, c, id).0;
      var k0 := SetStat(k, k.cur[c], RDY);
      WupIsRelease(k, c, t);
      TouchKeepsInv(k, k.cur[c], k0.tsk[k.cur[c]]);
      ReleaseKeepsBase(k0, t, r);
      ReleaseKeepsOwn(k0, t, r);
    } else if k.tsk[t].stat != NON && k.tsk[t].stat != DMT && k.tsk[t].wupcnt <= TMAX_WUPCNT {
      WupcntKeepsInv(k, t, k.tsk[t].wupcnt + 1);
    }
  }

  lemma SigIsRelease(k: KState, s: nat)
    requires Shape(k) && LinksOk(k.q) && WellFormed(k.q[Tmo], k.delta)
    requires 1 <= s <= MAX_ID && k.sem[s].act && k.q[SemQ(s)] != []
    ensures IsTask(k.q[SemQ(s)][0])
    ensures var t := k.q[SemQ(s)][0]; ReleasedAs(k, t, SigSem(k, s).0, k.tsk[t].(stat := RDY, eax := E_OK))
  {
    hide ReleasedAs, LinksOk, AllIds, WellFormed, Wake, SigSem;
    var t := k.q[SemQ(s)][0];
    HeadIsTask(k, SemQ(s));
    WakeIsRelease(k, SemQ(s), t);
    EaxReleased(k, t, Wake(k, SemQ(s), t), k.tsk[t].(stat := RDY));
    SigIs(k, s);
  }

  lemma SigIs(k: KState, s: nat)
    requires Shape(k) && 1 <= s <= MAX_ID && k.sem[s].act && k.q[SemQ(s)] != []
    ensures var t := k.q[SemQ(s)][0];
            IsTask(t) && SigSem(k, s) == (SetEax(Wake(k, SemQ(s), t), t, E_OK), E_OK)
  {
    hide TimeoutRemIfExist, Dequeue, SchedIns;
    HeadIsTask(k, SemQ(s));
  }

  /** Take t out of object queue h and the timeout list, and make it ready. */
  ghost function Wake(k: KState, h: Head, t: nat): (r: KState)
    requires Shape(k) && ValidHead(h) && IsTask(t)
    ensures Shape(r)
  {
    SchedIns(SetStat(TimeoutRemIfExist(Dequeue(k, h, t), t), t, RDY), t)
  }

  lemma WakeIsRelease(k: KState, h: Head, t: nat)
    requires Shape(k) && LinksOk(k.q) && WellFormed(k.q[Tmo], k.delta)
    requires ValidHead(h) && KindOf(h) == W && IsTask(t) && t in k.q[h]
    ensures ReleasedAs(k, t, Wake(k, h, t), k.tsk[t].(stat := RDY))
  {
    hide KeptBut, NoDup, InsertAt, WellFormed, TimeoutRemIfExist, Without, LinksOk, AllIds, SchedIns, Dequeue;
    var k0 := Dequeue(k, h, t);
    OnlyQueue(k, h, t);
    DequeueEffect(k, h, t);
    TimeoutRemEffect(k0, t);
    var k1 := TimeoutRemIfExist(k0, t);
    SchedInsEffect(SetStat(k1, t, RDY), t);
    var r := Wake(k, h, t);
    forall g | ValidHead(g) ensures r.q[g] == Released(k, t, g) {
      if g == h || g == Tmo { assert r.q[g] == k1.q[g]; }
    }
  }

  lemma EaxReleased(k: KState, t: nat, r: KState, x: Tcb)
    requires Shape(k) && IsTask(t) && ReleasedAs(k, t, r, x)
    ensures ReleasedAs(k, t, SetEax(r, t, E_OK), x.(eax := E_OK))
  {
    hide QShape, Released, KeptBut, WellFormed;
  }

  lemma SigKeepsInv(k: KState, s: nat)
    requires Inv(k)
    ensures Inv(SigSem(k, s).0)
  {
    hide LinksOk, MtxOk, SemOk, OwnOk, CpuOk, ReadyOk, WaitOk, WellFormed, IdleOk, InsertAt, Without,
      TimeoutRemIfExist;
    if 1 <= s <= MAX_ID && k.sem[s].act {
      var r := SigSem(k, s).0;
      if k.q[SemQ(s)] != [] {
        QueueHead(k, SemQ(s));
        SigIsRelease(k, s);
        ReleaseKeepsBase(k, k.q[SemQ(s)][0], r);
        ReleaseKeepsOwn(k, k.q[SemQ(s)][0], r);
      } else {
        SigCountKeepsSem(k, s);
      }
    }
  }

  lemma SigCountKeepsSem(k: KState, s: nat)
    requires Shape(k) && SemOk(k.tsk, k.q, k.sem) && 1 <= s <= MAX_ID && k.q[SemQ(s)] == []
    ensures var r := SigSem(k, s).0; SemOk(r.tsk, r.q, r.sem) && r == k.(sem := r.sem)
  {
    hide Sorted;
    var r := SigSem(k, s).0;
    forall u: nat | 1 <= u <= MAX_ID ensures SemAt(r.tsk, r.q[SemQ(u)], r.sem[u]) {
      assert SemAt(k.tsk, k.q[SemQ(u)], k.sem[u]);
    }
  }
}
