/** What the kernel promises over whole runs: waits end exactly once and on time, semaphores conserve. */
module KernelTheorems {
  import opened Links
  import opened Timeouts
  import opened KernelState
  import opened KernelInvariant
  import opened KernelSteps
  import opened KernelMutex
  import opened KernelTick
  import opened KernelRuns

  // ----- Who a step leaves alone -----

  /** Task t is left alone: same state, same return value, same object queues, same expiry. */
  ghost predicate Kept(k: KState, r: KState, t: nat)
    requires Shape(k) && Shape(r) && IsTask(t)
  {
    && r.tsk[t].stat == k.tsk[t].stat && r.tsk[t].eax == k.tsk[t].eax
    && (forall h :: ValidHead(h) && KindOf(h) == W ==> (t in r.q[h] <==> t in k.q[h]))
    && InRange(k.q[Tmo], k.delta) && InRange(r.q[Tmo], r.delta)
    && (t in r.q[Tmo] <==> t in k.q[Tmo])
    && (t in r.q[Tmo] && t in k.q[Tmo] ==> Remaining(r.q[Tmo], r.delta, t) == Remaining(k.q[Tmo], k.delta, t))
  }

  /** The call makes waiting task t ready. */
  ghost predicate Wakes(k: KState, c: nat, call: Call, t: nat)
    requires Shape(k)
  {
    match call
    case Wup(id) => id == t
    case Sig(s) => 1 <= s <= MAX_ID && k.sem[s].act && k.q[SemQ(s)] != [] && k.q[SemQ(s)][0] == t
    case Unl(m) => c < 2 && Unlocks(k, c, m) && k.q[MtxQ(m)] != [] && k.q[MtxQ(m)][0] == t
    case _ => false
  }

  lemma KeptSame(k: KState, r: KState, t: nat)
    requires Inv(k) && Shape(r) && IsTask(t) && r.q == k.q && r.delta == k.delta
    requires r.tsk[t].stat == k.tsk[t].stat && r.tsk[t].eax == k.tsk[t].eax
    ensures Kept(k, r, t)
  {
    hide ReadyOk, LinksOk, WaitOk, CpuOk, SemOk, MtxOk, OwnOk, IdleOk, NoDup, Remaining, QShape;
  }

  lemma KeptTrans(k: KState, l: KState, r: KState, t: nat)
    requires Shape(k) && Shape(l) && Shape(r) && IsTask(t) && Kept(k, l, t) && Kept(l, r, t)
    ensures Kept(k, r, t)
  {
    hide QShape, InRange, Remaining;
  }

  lemma KeptPark(k: KState, u: nat, w: Option<(Head, nat)>, x: Option<nat>, t: nat)
    requires MayPark(k, u, w, x) && IsTask(t) && t != u
    ensures Kept(k, Park(k, u, w, x), t)
  {
    hide ReadyOk, LinksOk, WaitOk, CpuOk, SemOk, MtxOk, OwnOk, IdleOk, NoDup, Remaining, AllIds, Park,
      InsertAt, Without, InRange, Queued;
    ActiveIsUnlinked(k, u);
    ParkQueues(k, u, w, x);
    ParkTimeout(k, u, w, x);
    if w.Some? { InsertMembers(k.q[w.value.0], w.value.1, u); }
  }

  lemma KeptRelease(k: KState, u: nat, r: KState, t: nat)
    requires Shape(k) && IsTask(u) && IsTask(t) && t != u && ReleaseEffect(k, u, r)
    requires KeptBut(k.q[Tmo], k.delta, r.q[Tmo], r.delta, u)
    ensures Kept(k, r, t)
  {
    hide Remaining, AllIds, InsertAt, Without, InRange;
    forall h | ValidHead(h) && KindOf(h) == W ensures t in r.q[h] <==> t in k.q[h] {
      WithoutMembers(k.q[h], u);
      assert r.q[h] == Released(k, u, h);
    }
  }

  /** The sleeping calls park the caller and ask for a reschedule. */
  lemma SleepIsPark(k: KState, c: nat, call: Call)
    requires Shape(k) && WellTyped(c, call) && (call.Slp? || call.Tslp? || call.Dly?)
    requires if call.Dly? then call.d != 0 else k.tsk[k.cur[c]].wupcnt == 0
    ensures var d := if call.Slp? then None else Some(if call.Tslp? then call.tmout else call.d);
            Exec(k, c, call) == (Resched(Park(k, k.cur[c], None, d)), E_OK)
  {
    hide QShape, InsertAt, Without;
  }

  lemma KeptParked(k: KState, u: nat, w: Option<(Head, nat)>, x: Option<nat>, t: nat)
    requires MayPark(k, u, w, x) && IsTask(t) && t != u
    ensures Kept(k, Resched(Park(k, u, w, x)), t)
  {
    hide MayPark, Kept, Park;
    MayParkUses(k, u, w, x);
    KeptPark(k, u, w, x, t);
    ParkKeepsInv(k, u, w, x);
    KeptSame(Park(k, u, w, x), Resched(Park(k, u, w, x)), t);
    KeptTrans(k, Park(k, u, w, x), Resched(Park(k, u, w, x)), t);
  }

  lemma MayParkUses(k: KState, u: nat, w: Option<(Head, nat)>, x: Option<nat>)
    requires MayPark(k, u, w, x)
    ensures Shape(k) && IsTask(u) && (x.Some? ==> x.value < UINT_MOD)
    ensures w.Some? ==> ValidHead(w.value.0) && w.value.1 <= |k.q[w.value.0]|
  {}

  lemma KeptSleep(k: KState, c: nat, call: Call, t: nat)
    requires Inv(k) && MayCall(k, c, call) && (call.Slp? || call.Tslp? || call.Dly?)
    requires IsTask(t) && t != k.cur[c] && Shape(Exec(k, c, call).0)
    ensures Kept(k, Exec(k, c, call).0, t)
  {
    hide ReadyOk, LinksOk, WaitOk, CpuOk, SemOk, MtxOk, OwnOk, IdleOk, WellFormed, QShape, Park, Kept,
      SchedRem, TimeoutIns;
    var u := k.cur[c];
    if (if call.Dly? then call.d != 0 else k.tsk[u].wupcnt == 0) {
      SleepIsPark(k, c, call);
      KeptParked(k, u, None, if call.Slp? then None else Some(if call.Tslp? then call.tmout else call.d), t);
    } else {
      KeptSame(k, Exec(k, c, call).0, t);
    }
  }

  lemma KeptTwai(k: KState, c: nat, s: nat, tmout: nat, t: nat)
    requires Shape(k) && MayCall(k, c, Twai(s, tmout)) && IsTask(t) && t != k.cur[c] && Inv(k)
    ensures Kept(k, TwaiSem(k, c, s, tmout).0, t)
  {
    hide ReadyOk, LinksOk, WaitOk, CpuOk, SemOk, MtxOk, OwnOk, IdleOk, WellFormed, QShape, Park, Kept,
      MayQueue, Wait;
    if SemBlocks(k, s, tmout) {
      SemMayQueue(k, c, s, tmout);
      TwaiIsPark(k, c, s, tmout);
      KeptParked(k, k.cur[c], Some((SemQ(s), SemPlace(k, c, s))), Limit(tmout), t);
    } else {
      KeptSame(k, TwaiSem(k, c, s, tmout).0, t);
    }
  }

  lemma KeptBoost(k: KState, m: nat, u: nat, t: nat)
    requires Inv(k) && IsTask(t) && IsTask(u) && 1 <= m < SLOTS && k.mtx[m].lock
    ensures Kept(k, Boost(k, m, u), t)
  {
    hide ReadyOk, LinksOk, WaitOk, CpuOk, SemOk, MtxOk, OwnOk, IdleOk, AllIds, Reprioritize, InsertAt,
      Without, NoDup;
    ReprioritizeEffect(k, k.mtx[m].owner, k.tsk[u].pri);
    if k.tsk[k.mtx[m].owner].pri > k.tsk[u].pri { assert Boost(k, m, u).q[Tmo] == k.q[Tmo]; }
  }

  lemma KeptLoc(k: KState, c: nat, m: nat, tmout: nat, t: nat)
    requires Shape(k) && MayCall(k, c, Loc(m, tmout)) && IsTask(t) && t != k.cur[c] && Inv(k)
    ensures Kept(k, TlocMtx(k, c, m, tmout).0, t)
  {
    hide ReadyOk, LinksOk, WaitOk, CpuOk, SemOk, MtxOk, OwnOk, IdleOk, WellFormed, QShape, Park, Kept,
      MayQueue, Wait, Boost, Enqueue, Reprioritize, SameBut;
    var u := k.cur[c];
    if MtxBlocks(k, c, m, tmout) {
      TlocIsPark(k, c, m, tmout);
      BoostKeepsInv(k, m, u);
      BoostMayQueue(k, m, u);
      KeptBoost(k, m, u, t);
      var w, x := Some((MtxQ(m), MtxPlace(k, m, u))), Limit(tmout);
      KeptParked(Boost(k, m, u), u, w, x, t);
      KeptTrans(k, Boost(k, m, u), Resched(Park(Boost(k, m, u), u, w, x)), t);
    } else {
      KeptSame(k, TlocMtx(k, c, m, tmout).0, t);
    }
  }

  lemma KeptSig(k: KState, s: nat, t: nat)
    requires Inv(k) && IsTask(t)
    requires 1 <= s <= MAX_ID && k.sem[s].act && k.q[SemQ(s)] != [] ==> k.q[SemQ(s)][0] != t
    ensures Kept(k, SigSem(k, s).0, t)
  {
    hide ReadyOk, LinksOk, WaitOk, CpuOk, SemOk, MtxOk, OwnOk, IdleOk, WellFormed, AllIds, Kept, KeptBut,
      InsertAt, Without, TimeoutRemIfExist;
    if 1 <= s <= MAX_ID && k.sem[s].act && k.q[SemQ(s)] != [] {
      HeadIsTask(k, SemQ(s));
      SigIsRelease(k, s);
      KeptRelease(k, k.q[SemQ(s)][0], SigSem(k, s).0, t);
    } else {
      KeptSame(k, SigSem(k, s).0, t);
    }
  }

  lemma KeptWup(k: KState, c: nat, id: nat, t: nat)
    requires Inv(k) && MayCall(k, c, Wup(id)) && IsTask(t) && t != k.cur[c] && t != id
    ensures Kept(k, WupTsk(k, c, id).0, t)
  {
    hide ReadyOk, LinksOk, WaitOk, CpuOk, SemOk, MtxOk, OwnOk, IdleOk, WellFormed, QShape, Kept, KeptBut,
      InsertAt, Without, TimeoutRemIfExist, Queued;
    var r := WupTsk(k, c, id).0;
    if IsTask(id) && k.tsk[id].stat == WAI {
      WupIsRelease(k, c, id);
      var k0 := SetStat(k, k.cur[c], RDY);
      KeptSame(k, k0, t);
      KeptRelease(k0, id, r, t);
      KeptTrans(k, k0, r, t);
    } else {
      KeptSame(k, r, t);
    }
  }

  lemma KeptAct(k: KState, c: nat, id: nat, t: nat)
    requires Inv(k) && MayCall(k, c, Act(id)) && IsTask(t) && k.tsk[t].stat != DMT
    ensures Kept(k, ActTsk(k, c, id).0, t)
  {
    hide ReadyOk, LinksOk, WaitOk, CpuOk, SemOk, MtxOk, OwnOk, IdleOk, AllIds, InsertAt, Without, NoDup,
      Remaining;
    var u := if id == 0 then k.cur[c] else id;
    if u >= SLOTS || k.tsk[u].stat != DMT { KeptSame(k, ActTsk(k, c, id).0, t); }
  }

  lemma KeptPass(k: KState, m: nat, t: nat)
    requires Inv(k) && IsTask(t) && 1 <= m < SLOTS && k.mtx[m].lock && MayPass(k, m)
    requires k.q[MtxQ(m)] != [] ==> k.q[MtxQ(m)][0] != t
    ensures Kept(k, PassMtx(k, m), t)
  {
    hide ReadyOk, LinksOk, WaitOk, CpuOk, SemOk, MtxOk, OwnOk, IdleOk, WellFormed, AllIds, Kept, InsertAt,
      Without, Dequeue, SchedIns, Remaining;
    if k.q[MtxQ(m)] != [] {
      var n := k.q[MtxQ(m)][0];
      HeadIsTask(k, MtxQ(m));
      PassIsRelease(k, m);
      var h := HandOver(k, m, n);
      KeptSame(k, h, t);
      WellFormedInRange(k.q[Tmo], k.delta);
      KeptRelease(h, n, PassMtx(k, m), t);
      KeptTrans(k, h, PassMtx(k, m), t);
    } else {
      KeptSame(k, PassMtx(k, m), t);
    }
  }

  lemma KeptSettle(k: KState, u: nat, t: nat)
    requires BaseInv(k) && WellFormed(k.q[Tmo], k.delta) && IsTask(u) && IsTask(t)
    ensures Kept(k, Settle(k, u), t)
  {
    hide ReadyOk, LinksOk, WaitOk, CpuOk, SemOk, MtxOk, IdleOk, AllIds, Settle, NoDup, Remaining;
    SettleFrame(k, u);
  }

  lemma KeptUnl(k: KState, c: nat, m: nat, t: nat)
    requires Inv(k) && MayCall(k, c, Unl(m)) && IsTask(t) && !Wakes(k, c, Unl(m), t)
    ensures Kept(k, UnlMtx(k, c, m).0, t)
  {
    hide ReadyOk, LinksOk, WaitOk, CpuOk, SemOk, MtxOk, OwnOk, IdleOk, AllIds, Kept, PassMtx, Settle,
      WellFormed;
    var u := k.cur[c];
    if Unlocks(k, c, m) {
      PassKeepsBase(k, m);
      KeptPass(k, m, t);
      var r := PassMtx(k, m);
      KeptSettle(r, u, t);
      KeptTrans(k, r, Settle(r, u), t);
    } else {
      KeptSame(k, UnlMtx(k, c, m).0, t);
    }
  }

  /** A service call leaves every ready or waiting task alone, except its caller and the task it wakes. */
  lemma ExecKeeps(k: KState, c: nat, call: Call, t: nat)
    requires Inv(k) && MayCall(k, c, call) && IsTask(t) && t != k.cur[c] && (k.tsk[t].stat == WAI || Active(k.tsk[t]))
    requires k.tsk[t].stat == WAI ==> !Wakes(k, c, call, t)
    ensures Shape(Exec(k, c, call).0) && Kept(k, Exec(k, c, call).0, t)
  {
    hide Inv, MayCall, Kept, SlpTsk, TslpTsk, DlyTsk, WupTsk, ActTsk, SigSem, TwaiSem, TlocMtx, UnlMtx, QShape,
      OwnersOk;
    InvIsShape(k);
    MayCallCaller(k, c, call);
    ExecKeepsInv(k, c, call);
    InvIsShape(Exec(k, c, call).0);
    if k.tsk[t].stat != WAI { ActiveNotWoken(k, c, call, t); }
    match call
    case Slp => KeptSleep(k, c, call, t);
    case Tslp(_) => KeptSleep(k, c, call, t);
    case Dly(_) => KeptSleep(k, c, call, t);
    case Wup(id) => if id != t { KeptWup(k, c, id, t); } else { KeptWupActive(k, c, t); }
    case Act(id) => KeptAct(k, c, id, t);
    case Sig(s) => KeptSig(k, s, t);
    case Twai(s, tmout) => KeptTwai(k, c, s, tmout, t);
    case Loc(m, tmout) => KeptLoc(k, c, m, tmout, t);
    case Unl(m) => KeptUnl(k, c, m, t);
    case _ => KeptSame(k, Exec(k, c, call).0, t);
  }

  lemma KeptWupActive(k: KState, c: nat, t: nat)
    requires Inv(k) && MayCall(k, c, Wup(t)) && IsTask(t) && Active(k.tsk[t])
    ensures Shape(WupTsk(k, c, t).0) && Kept(k, WupTsk(k, c, t).0, t)
  {
    hide ReadyOk, LinksOk, WaitOk, CpuOk, SemOk, MtxOk, OwnOk, IdleOk, WellFormed, QShape, Kept;
    KeptSame(k, WupTsk(k, c, t).0, t);
  }

  lemma ActiveNotWoken(k: KState, c: nat, call: Call, t: nat)
    requires Inv(k) && WellTyped(c, call) && IsTask(t) && k.tsk[t].stat != WAI
    ensures call.Wup? || !Wakes(k, c, call, t)
  {
    hide ReadyOk, LinksOk, CpuOk, SemOk, MtxOk, OwnOk, IdleOk, WellFormed, NoDup;
    match call
    case Sig(s) => if 1 <= s <= MAX_ID && k.q[SemQ(s)] != [] { QueueHead(k, SemQ(s)); }
    case Unl(m) => if 1 <= m < SLOTS && k.q[MtxQ(m)] != [] { QueueHead(k, MtxQ(m)); }
    case _ =>
  }

  // ----- The end of a wait -----

  /** The step makes waiting task t ready before its time. */
  ghost predicate WokenBy(k: KState, op: Op, t: nat)
    requires Shape(k)
  {
    op.Syscall? && Wakes(k, op.c, op.call, t)
  }

  ghost predicate TimedWait(k: KState, t: nat, d: nat) {
    Inv(k) && IsTask(t) && t in k.q[Tmo] && Remaining(k.q[Tmo], k.delta, t) == d
  }

  /** The wait is over: t is ready, in its ready queue and in no other, and will see return code e. */
  ghost predicate Ended(k: KState, t: nat, e: int) {
    && Inv(k) && IsTask(t)
    && k.tsk[t].stat == RDY && k.tsk[t].eax == e
    && t in k.q[Ready(k.tsk[t].pri)] && !Queued(k.q, W, t) && !Queued(k.q, T, t)
  }

  lemma ReadyIsEnded(k: KState, t: nat)
    requires Inv(k) && IsTask(t) && k.tsk[t].stat == RDY
    ensures Ended(k, t, k.tsk[t].eax)
  {
    hide LinksOk, CpuOk, SemOk, MtxOk, OwnOk, IdleOk, WellFormed, NoDup, AllIds;
    ActiveIsUnlinked(k, t);
  }

  lemma TimedWaitWaits(k: KState, t: nat, d: nat)
    requires TimedWait(k, t, d)
    ensures IsTask(t) && Shape(k) && k.tsk[t].stat == WAI && d >= 1
  {
    hide LinksOk, CpuOk, SemOk, MtxOk, OwnOk, IdleOk, ReadyOk, NoDup, AllIds;
    SumMonotone(k.q[Tmo], k.delta, 1, IndexOf(k.q[Tmo], t) + 1);
  }

  /** A tick ends a timed wait with one tick left, with E_TMOUT, and brings every other one a tick closer. */
  lemma TickOnWait(k: KState, t: nat, d: nat)
    requires TimedWait(k, t, d)
    ensures if d == 1 then Ended(Tick(k), t, E_TMOUT) else
            && d >= 2 && TimedWait(Tick(k), t, d - 1)
            && forall h :: ValidHead(h) && KindOf(h) == W ==> (t in Tick(k).q[h] <==> t in k.q[h])
  {
    hide LinksOk, CpuOk, SemOk, MtxOk, OwnOk, IdleOk, ReadyOk, WaitOk, NoDup, AllIds, Tick, Remaining,
      WellFormed, Ended;
    TimedWaitWaits(k, t, d);
    TickEffect(k);
    if d == 1 { ReadyIsEnded(Tick(k), t); }
  }

  lemma WaitingNotCurrent(k: KState, c: nat, call: Call, t: nat)
    requires Shape(k) && MayCall(k, c, call) && IsTask(t) && k.tsk[t].stat == WAI
    ensures t != k.cur[c]
  {}

  lemma EaxKept(k: KState, u: nat, v: int, t: nat)
    requires Inv(k) && IsTask(u) && IsTask(t) && t != u
    ensures Shape(SetEax(k, u, v)) && Kept(k, SetEax(k, u, v), t)
  {
    hide LinksOk, CpuOk, SemOk, MtxOk, OwnOk, IdleOk, ReadyOk, WaitOk, WellFormed, AllIds, Kept;
    KeptSame(k, SetEax(k, u, v), t);
  }

  lemma ApplyKeeps(k: KState, c: nat, call: Call, t: nat)
    requires Inv(k) && Enabled(k, Syscall(c, call)) && IsTask(t) && t != k.cur[c]
      && (k.tsk[t].stat == WAI || Active(k.tsk[t]))
    requires k.tsk[t].stat == WAI ==> !Wakes(k, c, call, t)
    ensures var r := Apply(k, Syscall(c, call)); Inv(r) && Kept(k, r, t)
  {
    hide Inv, MayCall, Kept, Exec, SetEax, Wakes;
    StepKeepsInv(k, Syscall(c, call));
    MayCallCaller(k, c, call);
    ExecKeepsInv(k, c, call);
    ExecKeeps(k, c, call, t);
    var r := Exec(k, c, call).0;
    EaxKept(r, k.cur[c], Exec(k, c, call).1, t);
    InvIsShape(Apply(k, Syscall(c, call)));
    KeptTrans(k, r, SetEax(r, k.cur[c], Exec(k, c, call).1), t);
  }

  lemma DispatchKeeps(k: KState, c: nat, t: nat)
    requires Inv(k) && c < 2 && IsTask(t) && (k.tsk[t].stat == WAI || Active(k.tsk[t]))
    ensures var r := Dispatch(k, c);
            Inv(r) && r.q == k.q && r.delta == k.delta && r.tsk[t].eax == k.tsk[t].eax
            && (k.tsk[t].stat == WAI ==> r.tsk[t].stat == WAI) && (Active(k.tsk[t]) ==> Active(r.tsk[t]))
  {
    hide LinksOk, CpuOk, SemOk, MtxOk, OwnOk, IdleOk, ReadyOk, WaitOk, WellFormed, AllIds, Pick;
    StepKeepsInv(k, Resume(c));
    DispatchOptimal(k, c);
  }

  /** A step that does not wake t leaves its timed wait as it is; a tick counts it down. */
  lemma StepOnWait(k: KState, op: Op, t: nat, d: nat)
    requires TimedWait(k, t, d) && Enabled(k, op) && !op.TimerTick? && !WokenBy(k, op, t)
    ensures var r := Apply(k, op);
            TimedWait(r, t, d) && forall h :: ValidHead(h) && KindOf(h) == W ==> (t in r.q[h] <==> t in k.q[h])
  {
    hide LinksOk, CpuOk, SemOk, MtxOk, OwnOk, IdleOk, ReadyOk, WaitOk, NoDup, AllIds, Exec, MayCall,
      Remaining, WellFormed, DoNext, SetEax, Wakes;
    TimedWaitWaits(k, t, d);
    match op
    case Syscall(c, call) =>
      WaitingNotCurrent(k, c, call, t);
      ApplyKeeps(k, c, call, t);
    case Resume(c) => DispatchKeeps(k, c, t);
  }

  function Ticks(ops: seq<Op>): nat {
    if ops == [] then 0 else Ticks(ops[..|ops| - 1]) + (if ops[|ops| - 1].TimerTick? then 1 else 0)
  }

  lemma TicksNext(ops: seq<Op>, n: nat)
    requires n < |ops|
    ensures Ticks(ops[..n + 1]) == Ticks(ops[..n]) + (if ops[n].TimerTick? then 1 else 0)
  {
    assert ops[..n + 1][..n] == ops[..n];
  }

  lemma NoTicks(ops: seq<Op>)
    ensures Ticks(ops[..0]) == 0
  {}

  /** Exact expiry: a task with d ticks left that nobody wakes early is still waiting with d minus the number of ticks
      so far until that number reaches d, and is woken with E_TMOUT by exactly the d-th tick, whatever happens in
      between to other tasks. */
  lemma {:induction false} ExactExpiry(ks: seq<KState>, ops: seq<Op>, t: nat, d: nat, n: nat)
    requires IsRun(ks, ops) && TimedWait(ks[0], t, d) && n <= |ops|
    requires Ticks(ops[..n]) < d
    requires forall i :: 0 <= i < n ==> Shape(ks[i]) && !WokenBy(ks[i], ops[i], t)
    ensures TimedWait(ks[n], t, d - Ticks(ops[..n]))
    ensures n < |ops| && ops[n].TimerTick? && Ticks(ops[..n + 1]) == d ==> Ended(ks[n + 1], t, E_TMOUT)
    ensures forall h :: ValidHead(h) && KindOf(h) == W ==> (t in ks[n].q[h] <==> t in ks[0].q[h])
  {
    hide TimedWait, Apply, Enabled, WokenBy, Ended, Tick, AllIds, OwnersOk, Ticks;
    TimedWaitShape(ks[0], t);
    if n == 0 {
      NoTicks(ops);
    } else {
      TicksNext(ops, n - 1);
      ExactExpiry(ks, ops, t, d, n - 1);
      RunStep(ks, ops, n - 1);
      AnyStepOnWait(ks[n - 1], ops[n - 1], t, d - Ticks(ops[..n - 1]));
    }
    TimedWaitShape(ks[n], t);
    if n < |ops| && ops[n].TimerTick? {
      RunStep(ks, ops, n);
      TicksNext(ops, n);
      TickOnWait(ks[n], t, d - Ticks(ops[..n]));
      ApplyTick(ks[n]);
    }
  }

  lemma RunStep(ks: seq<KState>, ops: seq<Op>, n: nat)
    requires IsRun(ks, ops) && n < |ops|
    ensures Enabled(ks[n], ops[n]) && ks[n + 1] == Apply(ks[n], ops[n])
  {}

  lemma AnyStepOnWait(k: KState, op: Op, t: nat, x: nat)
    requires TimedWait(k, t, x) && Enabled(k, op) && Shape(k) && !WokenBy(k, op, t) && (op.TimerTick? ==> x >= 2)
    ensures Shape(Apply(k, op)) && TimedWait(Apply(k, op), t, if op.TimerTick? then x - 1 else x)
    ensures forall h :: ValidHead(h) && KindOf(h) == W ==> (t in Apply(k, op).q[h] <==> t in k.q[h])
  {
    hide TimedWait, Apply, Enabled, WokenBy, Ended, Tick, AllIds;
    if op.TimerTick? {
      TickOnWait(k, t, x);
      ApplyTick(k);
    } else {
      StepOnWait(k, op, t, x);
    }
    TimedWaitShape(Apply(k, op), t);
  }

  lemma ApplyTick(k: KState)
    requires Enabled(k, TimerTick)
    ensures Apply(k, TimerTick) == Tick(k)
  {}

  lemma TimedWaitShape(k: KState, t: nat)
    ensures forall d :: TimedWait(k, t, d) ==> Shape(k)
  {}
}
