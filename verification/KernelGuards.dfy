/** The guards on service calls are exact: a call keeps the kernel's invariant if and only if its guard holds. For each
    guard that the code does not check, a run from start-up leads to a call that fails it. */
module KernelGuards {
  import opened Links
  import opened Timeouts
  import opened KernelState
  import opened KernelInvariant
  import opened KernelSteps
  import opened KernelMutex
  import opened KernelTick
  import opened KernelRuns
  import opened KernelTheorems

  // ----- Calls that put the caller to sleep -----

  /** An idle task that waits leaves its CPU without a task to run. */
  lemma IdleAsleep(k: KState, r: KState, c: nat)
    requires Shape(k) && c < 2 && !MaySleep(k, c) && r.tsk[..] == k.tsk[k.cur[c] := k.tsk[k.cur[c]].(stat := WAI)][..]
    ensures !Inv(r)
  {
    hide LinksOk, WellFormed, SemOk, MtxOk, OwnOk, CpuOk, ReadyOk, WaitOk;
  }

  lemma ParkTsk(k: KState, t: nat, w: Option<(Head, nat)>, x: Option<nat>)
    requires Shape(k) && IsTask(t) && (x.Some? ==> x.value < UINT_MOD)
    requires w.Some? ==> ValidHead(w.value.0) && w.value.1 <= |k.q[w.value.0]|
    ensures Park(k, t, w, x).tsk == k.tsk[t := k.tsk[t].(stat := WAI)]
  {
    hide QShape, InsertAt, Without;
  }

  /** slp_tsk keeps the invariant iff the caller is no idle task or a wake-up is queued. */
  lemma SlpGuardExact(k: KState, c: nat)
    requires Inv(k) && Caller(k, c)
    ensures Inv(SlpTsk(k, c).0) <==> MayCall(k, c, Slp)
  {
    hide Inv, SlpTsk, Park, MaySleep;
    InvIsShape(k);
    if MayCall(k, c, Slp) {
      SlpKeepsInv(k, c);
    } else {
      SleepIsPark(k, c, Slp);
      ParkTsk(k, k.cur[c], None, None);
      IdleAsleep(k, SlpTsk(k, c).0, c);
    }
  }

  /** tslp_tsk keeps the invariant iff the timeout is at least 1, and the caller is no idle task, or a wake-up is
      queued: a timeout of 0 puts a zero delta at the head of the timeout list, where the next tick makes it wrap. */
  lemma TslpGuardExact(k: KState, c: nat, tmout: nat)
    requires Inv(k) && Caller(k, c) && tmout < UINT_MOD
    ensures Inv(TslpTsk(k, c, tmout).0) <==> MayCall(k, c, Tslp(tmout))
  {
    hide Inv, TslpTsk, Park, MaySleep;
    InvIsShape(k);
    if MayCall(k, c, Tslp(tmout)) {
      if k.tsk[k.cur[c]].wupcnt == 0 { TslpKeepsInv(k, c, tmout); } else { QueuedWakeUp(k, c, tmout); }
    } else {
      SleepIsPark(k, c, Tslp(tmout));
      if tmout == 0 {
        ZeroTimeoutAtHead(k, c);
      } else {
        ParkTsk(k, k.cur[c], None, Some(tmout));
        IdleAsleep(k, TslpTsk(k, c, tmout).0, c);
      }
    }
  }

  lemma QueuedWakeUp(k: KState, c: nat, tmout: nat)
    requires Inv(k) && Caller(k, c) && tmout < UINT_MOD && k.tsk[k.cur[c]].wupcnt >= 1
    ensures Inv(TslpTsk(k, c, tmout).0)
  {
    hide Inv;
    InvIsShape(k);
    WupcntKeepsInv(k, k.cur[c], k.tsk[k.cur[c]].wupcnt - 1);
  }

  lemma ZeroTimeoutAtHead(k: KState, c: nat)
    requires Inv(k) && Caller(k, c) && k.tsk[k.cur[c]].wupcnt == 0
    ensures !Inv(TslpTsk(k, c, 0).0)
  {
    hide ReadyOk, LinksOk, CpuOk, MtxOk, SemOk, OwnOk, IdleOk, WaitOk, Without, NoDup, Remaining;
    var t := k.cur[c];
    var r := TslpTsk(k, c, 0).0;
    assert Position(k.q[Tmo], k.delta, 0, 0) == (0, 0);
    assert r.q[Tmo] == InsertAt(k.q[Tmo], 0, t);
    assert r.delta[t] == 0;
  }

  /** dly_tsk keeps the invariant iff the caller is no idle task or the delay is 0. */
  lemma DlyGuardExact(k: KState, c: nat, d: nat)
    requires Inv(k) && Caller(k, c) && d < UINT_MOD
    ensures Inv(DlyTsk(k, c, d).0) <==> MayCall(k, c, Dly(d))
  {
    hide Inv, DlyTsk, Park, MaySleep;
    InvIsShape(k);
    if MayCall(k, c, Dly(d)) {
      DlyKeepsInv(k, c, d);
    } else {
      SleepIsPark(k, c, Dly(d));
      ParkTsk(k, k.cur[c], None, Some(d));
      IdleAsleep(k, DlyTsk(k, c, d).0, c);
    }
  }

  // ----- Waking -----

  /** wup_tsk keeps the invariant iff a waiting target is in no object queue: the call does not unlink it from one. */
  lemma WupGuardExact(k: KState, c: nat, id: nat)
    requires Inv(k) && Caller(k, c) && id <= SLOTS
    ensures Inv(WupTsk(k, c, id).0) <==> MayCall(k, c, Wup(id))
  {
    hide Inv, WupTsk, Queued;
    InvIsShape(k);
    if MayCall(k, c, Wup(id)) {
      WupKeepsInv(k, c, id);
    } else {
      WupLeavesLinked(k, c, id);
    }
  }

  lemma WupLeavesLinked(k: KState, c: nat, id: nat)
    requires Inv(k) && Caller(k, c) && IsTask(id) && k.tsk[id].stat == WAI && Queued(k.q, W, id)
    ensures !Inv(WupTsk(k, c, id).0)
  {
    hide ReadyOk, LinksOk, CpuOk, MtxOk, SemOk, OwnOk, IdleOk, WaitOk, WellFormed, WupTsk, SchedIns,
      TimeoutRemIfExist, AllIds;
    var h :| h in k.q && KindOf(h) == W && id in k.q[h];
    WupIs(k, c, id);
    var k1 := SetStat(SetStat(k, id, RDY), k.cur[c], RDY);
    SchedInsEffect(k1, id);
    TimeoutRemEffect(SchedIns(k1, id), id);
    LinkedAndActive(WupTsk(k, c, id).0, h, id);
  }

  // ----- Semaphores -----

  /** cre_sem keeps the invariant iff the count it starts with is within its maximum and that is not the largest word.
      */
  lemma CreSemGuardExact(k: KState, c: nat, s: nat, atr: nat, cnt: nat, max: nat)
    requires Inv(k) && Caller(k, c)
    ensures Inv(CreSem(k, s, atr, cnt, max).0) <==> MayCall(k, c, CreS(s, atr, cnt, max))
  {
    hide LinksOk, MtxOk, OwnOk, CpuOk, ReadyOk, WaitOk, WellFormed, IdleOk, Sorted;
    if MayCall(k, c, CreS(s, atr, cnt, max)) {
      CreSemKeepsInv(k, s, atr, cnt, max);
    } else {
      var r := CreSem(k, s, atr, cnt, max).0;
      assert r.sem[s] == Sem(true, atr, cnt, max) && !SemAt(r.tsk, r.q[SemQ(s)], r.sem[s]);
    }
  }

  /** Signalling a semaphore nobody waits on is refused exactly at the maximum, unless the count stands at the largest
      word: there the overflow test wraps and the count falls back to 0. */
  lemma SignalOverflowIff(k: KState, s: nat)
    requires Shape(k) && 1 <= s <= MAX_ID && k.sem[s].act && k.q[SemQ(s)] == []
    requires k.sem[s].cnt <= k.sem[s].max < UINT_MOD
    ensures (SigSem(k, s).1 == E_QOVR <==> k.sem[s].cnt == k.sem[s].max) <==> k.sem[s].cnt != UINT_MOD - 1
  {
    if k.sem[s].cnt == UINT_MOD - 1 { assert (k.sem[s].cnt + 1) % UINT_MOD == 0; }
  }

  /** A semaphore wait that blocks keeps the invariant iff no wake-up is queued for the caller and it is no idle task:
      with a wake-up queued the call returns at once and leaves the running caller linked in the semaphore's queue. */
  lemma TwaiGuardExact(k: KState, c: nat, s: nat, tmout: nat)
    requires Inv(k) && Caller(k, c) && tmout < UINT_MOD
    ensures Inv(TwaiSem(k, c, s, tmout).0) <==> MayCall(k, c, Twai(s, tmout))
  {
    hide Inv, TwaiSem, Park, MaySleep, SemBlocks;
    InvIsShape(k);
    if MayCall(k, c, Twai(s, tmout)) {
      TwaiKeepsInv(k, c, s, tmout);
    } else if k.tsk[k.cur[c]].wupcnt >= 1 {
      TwaiLeavesLinked(k, c, s, tmout);
    } else {
      TwaiIdle(k, c, s, tmout);
    }
  }

  lemma TwaiIdle(k: KState, c: nat, s: nat, tmout: nat)
    requires Shape(k) && c < 2 && SemBlocks(k, s, tmout) && k.tsk[k.cur[c]].wupcnt == 0 && tmout < UINT_MOD
      && !MaySleep(k, c)
    requires Inv(k)
    ensures !Inv(TwaiSem(k, c, s, tmout).0)
  {
    hide TwaiSem, Park, MaySleep, SemAt, ReadyOk, LinksOk, CpuOk, MtxOk, OwnOk, IdleOk, WellFormed, WaitOk;
    SemMayQueue(k, c, s, tmout);
    TwaiIsPark(k, c, s, tmout);
    ParkTsk(k, k.cur[c], Some((SemQ(s), SemPlace(k, c, s))), Limit(tmout));
    IdleAsleep(k, TwaiSem(k, c, s, tmout).0, c);
  }

  lemma TwaiLeavesLinked(k: KState, c: nat, s: nat, tmout: nat)
    requires Shape(k) && Caller(k, c) && tmout < UINT_MOD && SemBlocks(k, s, tmout)
    requires k.tsk[k.cur[c]].wupcnt >= 1 && Inv(k)
    ensures !Inv(TwaiSem(k, c, s, tmout).0)
  {
    hide ReadyOk, LinksOk, CpuOk, MtxOk, SemOk, OwnOk, IdleOk, WellFormed, InsertAt, Without, NoDup;
    var r := TwaiSem(k, c, s, tmout).0;
    var t := k.cur[c];
    InsertMembers(k.q[SemQ(s)], SemPlace(k, c, s), t);
    assert r.q[SemQ(s)] == InsertAt(k.q[SemQ(s)], SemPlace(k, c, s), t);
    assert r.tsk[t].stat == k.tsk[t].stat;
  }

  // ----- Mutexes -----

  /** A lock wait keeps the invariant iff no wake-up is queued for the caller, it is no idle task, and an owner that
      inherits its priority is ready: an owner that waits itself would enter a ready queue. */
  lemma TlocGuardExact(k: KState, c: nat, m: nat, tmout: nat)
    requires Inv(k) && Caller(k, c) && tmout < UINT_MOD
    ensures Inv(TlocMtx(k, c, m, tmout).0) <==> MayCall(k, c, Loc(m, tmout))
  {
    hide Inv, TlocMtx, Park, MaySleep, Boost;
    InvIsShape(k);
    if MayLock(k, c, m, tmout) {
      TlocKeepsInv(k, c, m, tmout);
    } else if k.tsk[k.cur[c]].wupcnt >= 1 {
      TlocLeavesLinked(k, c, m, tmout);
    } else if !MaySleep(k, c) {
      TlocIdle(k, c, m, tmout);
    } else {
      BoostedSleeper(k, c, m, tmout);
    }
  }

  lemma TlocLeavesLinked(k: KState, c: nat, m: nat, tmout: nat)
    requires Shape(k) && Caller(k, c) && tmout < UINT_MOD && MtxBlocks(k, c, m, tmout)
    requires k.tsk[k.cur[c]].wupcnt >= 1 && Inv(k)
    ensures !Inv(TlocMtx(k, c, m, tmout).0)
  {
    hide ReadyOk, LinksOk, CpuOk, MtxOk, SemOk, OwnOk, IdleOk, WellFormed, WaitOk, Boost, Enqueue, Wait, QShape;
    var t := k.cur[c];
    var k1 := Enqueue(k, MtxQ(m), MtxPlace(k, m, t), t);
    JoinsQueue(k, m, t);
    WaitReturns(Boost(k1, m, t), c, tmout);
    LinkedAndActive(TlocMtx(k, c, m, tmout).0, MtxQ(m), t);
  }

  lemma JoinsQueue(k: KState, m: nat, t: nat)
    requires Shape(k) && IsTask(t) && 1 <= m < SLOTS && k.mtx[m].lock && k.mtx[m].owner != t
    ensures var k1 := Enqueue(k, MtxQ(m), MtxPlace(k, m, t), t);
            && k1.mtx == k.mtx
            && var r := Boost(k1, m, t);
               r.cur == k.cur && r.tsk[t] == k.tsk[t] && t in r.q[MtxQ(m)]
  {
    hide Reprioritize, InsertAt, Without, MtxPlace, AllIds;
    var k1 := Enqueue(k, MtxQ(m), MtxPlace(k, m, t), t);
    InsertMembers(k.q[MtxQ(m)], MtxPlace(k, m, t), t);
    ReprioritizeEffect(k1, k.mtx[m].owner, k.tsk[t].pri);
  }

  /** With a wake-up queued, a wait returns at once. */
  lemma WaitReturns(k: KState, c: nat, tmout: nat)
    requires Shape(k) && c < 2 && tmout < UINT_MOD && k.tsk[k.cur[c]].wupcnt >= 1
    ensures var r := Wait(k, c, tmout); r.q == k.q && r.tsk[k.cur[c]].stat == k.tsk[k.cur[c]].stat
  {
    hide QShape;
  }

  lemma LinkedAndActive(k: KState, h: Head, t: nat)
    requires Shape(k) && ValidHead(h) && KindOf(h) != P && t in k.q[h] && IsTask(t) && Active(k.tsk[t])
    ensures !Inv(k)
  {
    hide ReadyOk, LinksOk, CpuOk, MtxOk, SemOk, OwnOk, IdleOk, WellFormed, AllIds;
  }

  lemma TlocIdle(k: KState, c: nat, m: nat, tmout: nat)
    requires Shape(k) && c < 2 && MtxBlocks(k, c, m, tmout) && k.tsk[k.cur[c]].wupcnt == 0 && tmout < UINT_MOD
    requires !MaySleep(k, c)
    ensures !Inv(TlocMtx(k, c, m, tmout).0)
  {
    hide TlocMtx, Park, Reprioritize, LinksOk, WellFormed, SemOk, MtxOk, OwnOk, CpuOk, ReadyOk, WaitOk, AllIds;
    var t, o := k.cur[c], k.mtx[m].owner;
    TlocIsPark(k, c, m, tmout);
    ReprioritizeEffect(k, o, k.tsk[t].pri);
    ParkTsk(Boost(k, m, t), t, Some((MtxQ(m), MtxPlace(k, m, t))), Limit(tmout));
    assert TlocMtx(k, c, m, tmout).0.tsk[t].stat == WAI;
  }

  lemma BoostedSleeper(k: KState, c: nat, m: nat, tmout: nat)
    requires Shape(k) && Caller(k, c) && MtxBlocks(k, c, m, tmout) && k.tsk[k.cur[c]].wupcnt == 0 && tmout < UINT_MOD
    requires Boosts(k, m, k.cur[c]) && !Active(k.tsk[k.mtx[m].owner]) && Inv(k)
    ensures !Inv(TlocMtx(k, c, m, tmout).0)
  {
    hide TlocMtx, Park, Reprioritize, InsertAt, Without, LinksOk, WellFormed, SemOk, MtxOk, OwnOk, CpuOk, IdleOk,
      WaitOk, AllIds;
    var t, o, p := k.cur[c], k.mtx[m].owner, k.tsk[k.cur[c]].pri;
    var b := Boost(k, m, t);
    var w, x := Some((MtxQ(m), MtxPlace(k, m, t))), Limit(tmout);
    TlocIsPark(k, c, m, tmout);
    ReprioritizeEffect(k, o, p);
    InsertMembers(k.q[Ready(p)], |k.q[Ready(p)]|, o);
    ParkQueues(b, t, w, x);
    WithoutMembers(b.q[Ready(p)], t);
    var r := TlocMtx(k, c, m, tmout).0;
    assert o in r.q[Ready(p)] && !Active(r.tsk[o]);
  }

  /** Unlocking keeps the invariant iff the first waiter has no timeout running: the call makes it ready without
      cancelling the timeout. */
  lemma UnlGuardExact(k: KState, c: nat, m: nat)
    requires Inv(k) && Caller(k, c)
    ensures Inv(UnlMtx(k, c, m).0) <==> MayCall(k, c, Unl(m))
  {
    hide Inv, UnlMtx;
    InvIsShape(k);
    if Unlocks(k, c, m) && !MayPass(k, m) {
      ReadyWithTimeout(k, c, m);
    } else {
      UnlKeepsInv(k, c, m);
    }
  }

  lemma PassWakes(k: KState, m: nat)
    requires Shape(k) && 1 <= m < SLOTS && k.q[MtxQ(m)] != []
    ensures var n, r := k.q[MtxQ(m)][0], PassMtx(k, m);
            IsTask(n) && r.q[Tmo] == k.q[Tmo] && r.tsk[n].stat == RDY
  {
    hide InsertAt, Without, Dequeue, SchedIns;
    HeadIsTask(k, MtxQ(m));
    var n := k.q[MtxQ(m)][0];
    var k1 := Inc(k.(mtx := k.mtx[m := k.mtx[m].(lock := true, owner := n)]), n);
    DequeueEffect(k1, MtxQ(m), n);
    SchedInsEffect(SetEax(SetStat(Dequeue(k1, MtxQ(m), n), n, RDY), n, E_OK), n);
  }

  lemma ReadyWithTimeout(k: KState, c: nat, m: nat)
    requires Inv(k) && Caller(k, c) && Unlocks(k, c, m) && !MayPass(k, m)
    ensures !Inv(UnlMtx(k, c, m).0)
  {
    hide LinksOk, WellFormed, SemOk, MtxOk, OwnOk, CpuOk, IdleOk, ReadyOk, AllIds, PassMtx, Settle;
    var t, n := k.cur[c], k.q[MtxQ(m)][0];
    QueueHead(k, MtxQ(m));
    PassWakes(k, m);
    SettleFrame(PassMtx(k, m), t);
    var r := UnlMtx(k, c, m).0;
    assert r == Settle(PassMtx(k, m), t);
    assert n in r.q[Tmo] && r.tsk[n].stat == RDY;
  }

  /** Every service call keeps the kernel's invariant exactly when its guard holds. */
  lemma CallGuardExact(k: KState, c: nat, call: Call)
    requires Inv(k) && Caller(k, c) && WellTyped(c, call)
    ensures Inv(Exec(k, c, call).0) <==> MayCall(k, c, call)
  {
    hide Inv, SlpTsk, TslpTsk, DlyTsk, WupTsk, ActTsk, CreTsk, CreSem, SigSem, PolSem, TwaiSem, CreMtx, TlocMtx, UnlMtx,
      SemBlocks, MayLock, Unlocks, MayPass, MaySleep, Queued;
    InvIsShape(k);
    match call
    case Slp => SlpGuardExact(k, c);
    case Tslp(tmout) => TslpGuardExact(k, c, tmout);
    case Dly(d) => DlyGuardExact(k, c, d);
    case Wup(t) => WupGuardExact(k, c, t);
    case CreS(s, atr, cnt, max) => CreSemGuardExact(k, c, s, atr, cnt, max);
    case Twai(s, tmout) => TwaiGuardExact(k, c, s, tmout);
    case Loc(m, tmout) => TlocGuardExact(k, c, m, tmout);
    case Unl(m) => UnlGuardExact(k, c, m);
    case _ => ExecKeepsInv(k, c, call);
  }
}
