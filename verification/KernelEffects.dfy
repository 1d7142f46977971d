/** What every service call does, described by the state it leaves: who sleeps and where, who is woken, who owns a
    mutex, what is created, which CPU is asked to reschedule, and which code is returned. */
module KernelEffects {
  import opened Links
  import opened Timeouts
  import opened KernelState
  import opened KernelInvariant
  import opened KernelSteps
  import opened KernelMutex
  import opened KernelTick
  import opened KernelRuns
  import opened KernelTheorems
  import opened KernelTables
  import opened KernelPriorities
  import opened KernelCounts

  // ----- Going to sleep -----

  /** The call puts its caller to sleep. */
  ghost predicate Sleeps(k: KState, c: nat, call: Call)
    requires Shape(k) && c < 2
  {
    match call
    case Slp => k.tsk[k.cur[c]].wupcnt == 0
    case Tslp(_) => k.tsk[k.cur[c]].wupcnt == 0
    case Dly(d) => d != 0
    case Twai(s, x) => SemBlocks(k, s, x)
    case Loc(m, x) => MtxBlocks(k, c, m, x)
    case _ => false
  }

  /** The object queue a sleeping call waits in. */
  function WaitsIn(call: Call): Option<Head> {
    match call
    case Twai(s, _) => Some(SemQ(s))
    case Loc(m, _) => Some(MtxQ(m))
    case _ => None
  }

  /** How many ticks it waits at most. */
  function WaitsFor(call: Call): Option<nat> {
    match call
    case Tslp(x) => Some(x)
    case Dly(d) => Some(d)
    case Twai(_, x) => Limit(x)
    case Loc(_, x) => Limit(x)
    case _ => None
  }

  /** Queue h gained t at its end if the queue is one of a FIFO semaphore, and otherwise behind those of the same or a
      higher priority and before those of a lower one; the others keep their order. */
  ghost predicate Queues(k: KState, r: KState, h: Head, t: nat) {
    && Shape(k) && Shape(r) && ValidHead(h) && IsTask(t)
    && exists i: nat :: i <= |k.q[h]| && r.q[h] == InsertAt(k.q[h], i, t) && QueuesAt(k, h, t, i)
  }

  ghost predicate QueuesAt(k: KState, h: Head, t: nat, i: nat)
    requires Shape(k) && ValidHead(h) && IsTask(t) && i <= |k.q[h]|
  {
    var s := k.q[h];
    if h.SemQ? && k.sem[h.s].atr == 0 then i == |s|
    else
      && (forall j :: 0 <= j < i ==> k.tsk[s[j]].pri <= k.tsk[t].pri)
      && (forall j :: i <= j < |s| ==> k.tsk[s[j]].pri > k.tsk[t].pri)
  }

  /** Task t is in no ready queue. */
  ghost predicate NotReady(r: KState, t: nat) {
    Shape(r) && forall p: nat :: 1 <= p <= TMAX_TPRI ==> t !in r.q[Ready(p)]
  }

  /** Task t now waits, in object queue at if there is one, for d ticks if that is limited, and is ready no more; both
      CPUs are asked to reschedule; of the other tasks nothing changes but perhaps priorities, and no other wait does.
      */
  ghost predicate Asleep(k: KState, r: KState, t: nat, at: Option<Head>, d: Option<nat>) {
    && Shape(k) && Shape(r) && IsTask(t)
    && r.tsk[t] == k.tsk[t].(stat := WAI)
    && (forall u: nat :: IsTask(u) && u != t ==> r.tsk[u] == k.tsk[u].(pri := r.tsk[u].pri))
    && r.sem == k.sem && r.mtx == k.mtx && r.cur == k.cur && r.flag == [true, true]
    && NotReady(r, t)
    && (forall h {:trigger r.q[h]} :: ValidHead(h) && KindOf(h) == W && at != Some(h) ==> r.q[h] == k.q[h])
    && (at.Some? ==> Queues(k, r, at.value, t))
    && KeptBut(k.q[Tmo], k.delta, r.q[Tmo], r.delta, t)
    && (if d.Some? then t in r.q[Tmo] && Remaining(r.q[Tmo], r.delta, t) == d.value else t !in r.q[Tmo])
  }

  lemma ParkedSleeps(k: KState, t: nat, w: Option<(Head, nat)>, d: Option<nat>)
    requires MayPark(k, t, w, d) && Shape(k)
    requires w.Some? ==> ValidHead(w.value.0) && w.value.1 <= |k.q[w.value.0]| && QueuesAt(k, w.value.0, t, w.value.1)
    ensures Asleep(k, Resched(Park(k, t, w, d)), t, if w.Some? then Some(w.value.0) else None, d)
  {
    hide LinksOk, CpuOk, SemOk, MtxOk, OwnOk, IdleOk, ReadyOk, WaitOk, WellFormed, AllIds, InsertAt, Without, Park,
      KeptBut, Remaining, Queued, QueuesAt, NoDup;
    var r := Resched(Park(k, t, w, d));
    ActiveIsUnlinked(k, t);
    ParkQueues(k, t, w, d);
    ParkTimeout(k, t, w, d);
    OffReadyQueues(k, t, w, d);
    if w.Some? { assert r.q[w.value.0] == InsertAt(k.q[w.value.0], w.value.1, t); }
  }

  lemma OffReadyQueues(k: KState, t: nat, w: Option<(Head, nat)>, d: Option<nat>)
    requires MayPark(k, t, w, d)
    ensures Shape(k) && IsTask(t) && NotReady(Park(k, t, w, d), t)
  {
    hide LinksOk, CpuOk, SemOk, MtxOk, OwnOk, IdleOk, WaitOk, WellFormed, AllIds, Park;
    ParkKeepsInv(k, t, w, d);
    ParkTsk(k, t, w, d);
  }

  lemma ParkTsk(k: KState, t: nat, w: Option<(Head, nat)>, d: Option<nat>)
    requires MayPark(k, t, w, d)
    ensures Shape(k) && IsTask(t) && Shape(Park(k, t, w, d))
    ensures Park(k, t, w, d).tsk == k.tsk[t := k.tsk[t].(stat := WAI)]
  {
    hide LinksOk, CpuOk, SemOk, MtxOk, OwnOk, IdleOk, WaitOk, WellFormed, AllIds, Park, ReadyOk;
    ParkQueues(k, t, w, d);
  }

  /** Every call that sleeps leaves its caller waiting exactly where and as long as it should. */
  lemma CallerSleeps(k: KState, c: nat, call: Call)
    requires Inv(k) && MayCall(k, c, call) && Shape(k) && c < 2 && Sleeps(k, c, call)
    ensures Asleep(k, Exec(k, c, call).0, k.cur[c], WaitsIn(call), WaitsFor(call))
    ensures Exec(k, c, call).1 == if call.Twai? then E_TMOUT else E_OK
  {
    hide Inv, MayCall, Asleep, Exec, QShape, OwnersOk, MtxBlocks, SemBlocks;
    match call
    case Slp => PlainSleep(k, c, call);
    case Tslp(_) => PlainSleep(k, c, call);
    case Dly(_) => PlainSleep(k, c, call);
    case Twai(s, x) => SemSleep(k, c, s, x);
    case Loc(m, x) => LockSleep(k, c, m, x);
  }

  lemma PlainSleep(k: KState, c: nat, call: Call)
    requires Inv(k) && MayCall(k, c, call) && (call.Slp? || call.Tslp? || call.Dly?) && Shape(k) && c < 2
    requires Sleeps(k, c, call)
    ensures Asleep(k, Exec(k, c, call).0, k.cur[c], None, WaitsFor(call)) && Exec(k, c, call).1 == E_OK
  {
    hide LinksOk, CpuOk, SemOk, MtxOk, OwnOk, IdleOk, ReadyOk, WaitOk, WellFormed, QShape, OwnersOk, Asleep, Exec, Park;
    MayCallCaller(k, c, call);
    SleepIsPark(k, c, call);
    ParkedSleeps(k, k.cur[c], None, WaitsFor(call));
  }

  lemma SemSleep(k: KState, c: nat, s: nat, x: nat)
    requires Inv(k) && MayCall(k, c, Twai(s, x)) && Shape(k) && c < 2 && SemBlocks(k, s, x)
    ensures Asleep(k, Exec(k, c, Twai(s, x)).0, k.cur[c], Some(SemQ(s)), Limit(x))
    ensures Exec(k, c, Twai(s, x)).1 == E_TMOUT
  {
    hide LinksOk, CpuOk, SemOk, MtxOk, OwnOk, IdleOk, ReadyOk, WaitOk, WellFormed, QShape, OwnersOk, Asleep, Park,
      MayQueue, TwaiSem, QueuesAt;
    SemMayQueue(k, c, s, x);
    TwaiIsPark(k, c, s, x);
    SemPlaceFits(k, c, s, x);
    ParkedSleeps(k, k.cur[c], Some((SemQ(s), SemPlace(k, c, s))), Limit(x));
  }

  lemma SemPlaceFits(k: KState, c: nat, s: nat, x: nat)
    requires Inv(k) && Shape(k) && c < 2 && SemBlocks(k, s, x)
    ensures ValidHead(SemQ(s)) && SemPlace(k, c, s) <= |k.q[SemQ(s)]|
    ensures QueuesAt(k, SemQ(s), k.cur[c], SemPlace(k, c, s))
  {
    hide LinksOk, CpuOk, MtxOk, OwnOk, IdleOk, ReadyOk, WaitOk, WellFormed, OwnersOk, FitsAt;
    assert SemAt(k.tsk, k.q[SemQ(s)], k.sem[s]);
    if k.sem[s].atr != 0 { PriPositionFits(k.tsk, k.q[SemQ(s)], k.cur[c]); }
  }

  /** Two states that differ in nothing that matters to the waits: priorities of tasks outside queue h, and ready
      queues. */
  ghost predicate SameWaits(k: KState, b: KState, h: Head, t: nat) {
    && Shape(k) && Shape(b) && ValidHead(h) && IsTask(t)
    && b.tsk[t] == k.tsk[t]
    && (forall u: nat :: IsTask(u) ==> b.tsk[u] == k.tsk[u].(pri := b.tsk[u].pri))
    && (forall u: nat :: IsTask(u) && u in k.q[h] ==> b.tsk[u].pri == k.tsk[u].pri)
    && b.sem == k.sem && b.mtx == k.mtx && b.cur == k.cur && b.delta == k.delta
    && (forall g {:trigger b.q[g]} :: ValidHead(g) && KindOf(g) != P ==> b.q[g] == k.q[g])
  }

  lemma SleepsAlike(k: KState, b: KState, r: KState, h: Head, t: nat, d: Option<nat>)
    requires SameWaits(k, b, h, t) && KindOf(h) == W && Asleep(b, r, t, Some(h), d)
    ensures Asleep(k, r, t, Some(h), d)
  {
    hide InsertAt, KeptBut, Remaining, OwnersOk;
    var i: nat :| i <= |b.q[h]| && r.q[h] == InsertAt(b.q[h], i, t) && QueuesAt(b, h, t, i);
    assert b.q[Tmo] == k.q[Tmo];
    forall j | 0 <= j < |k.q[h]| ensures b.tsk[k.q[h][j]].pri == k.tsk[k.q[h][j]].pri {
      assert k.q[h][j] in k.q[h];
    }
    assert QueuesAt(k, h, t, i);
  }

  lemma BoostSameWaits(k: KState, c: nat, m: nat, x: nat)
    requires Inv(k) && Shape(k) && MtxBlocksFor(k, c, m, x)
    requires Boosts(k, m, k.cur[c]) ==> Active(k.tsk[k.mtx[m].owner])
    ensures SameWaits(k, Boost(k, m, k.cur[c]), MtxQ(m), k.cur[c])
  {
    hide LinksOk, CpuOk, SemOk, MtxOk, OwnOk, IdleOk, ReadyOk, WellFormed, AllIds, Reprioritize;
    var t, o := k.cur[c], k.mtx[m].owner;
    BoostTable(k, m, t);
    if Boosts(k, m, t) {
      ReprioritizeEffect(k, o, k.tsk[t].pri);
      ActiveIsUnlinked(k, o);
      OwnerNotWaiting(k, m);
      assert o !in k.q[MtxQ(m)];
    }
  }

  ghost predicate MtxBlocksFor(k: KState, c: nat, m: nat, x: nat) {
    Shape(k) && c < 2 && 1 <= m < SLOTS && k.mtx[m].lock && MtxBlocks(k, c, m, x)
  }

  lemma LockPlaceFits(k: KState, c: nat, m: nat)
    requires Inv(k) && Shape(k) && c < 2 && 1 <= m < SLOTS
    ensures ValidHead(MtxQ(m)) && MtxPlace(k, m, k.cur[c]) <= |k.q[MtxQ(m)]|
    ensures QueuesAt(k, MtxQ(m), k.cur[c], MtxPlace(k, m, k.cur[c]))
  {
    hide LinksOk, CpuOk, SemOk, OwnOk, IdleOk, ReadyOk, WaitOk, WellFormed, FitsAt;
    assert MtxAt(k.tsk, k.q[MtxQ(m)], k.mtx[m]);
    PriPositionFits(k.tsk, k.q[MtxQ(m)], k.cur[c]);
  }

  lemma QueuesAlike(k: KState, b: KState, h: Head, t: nat, i: nat)
    requires SameWaits(k, b, h, t) && KindOf(h) == W && i <= |k.q[h]| && QueuesAt(k, h, t, i)
    ensures i <= |b.q[h]| && QueuesAt(b, h, t, i)
  {
    hide OwnersOk;
    forall j | 0 <= j < |k.q[h]| ensures b.tsk[k.q[h][j]].pri == k.tsk[k.q[h][j]].pri {
      assert k.q[h][j] in k.q[h];
    }
  }

  lemma LockSleep(k: KState, c: nat, m: nat, x: nat)
    requires Inv(k) && MayCall(k, c, Loc(m, x)) && Shape(k) && c < 2 && MtxBlocks(k, c, m, x)
    ensures Asleep(k, Exec(k, c, Loc(m, x)).0, k.cur[c], Some(MtxQ(m)), Limit(x)) && Exec(k, c, Loc(m, x)).1 == E_OK
  {
    hide LinksOk, CpuOk, SemOk, MtxOk, OwnOk, IdleOk, ReadyOk, WaitOk, WellFormed, QShape, OwnersOk, Asleep, Park,
      MayQueue, TlocMtx, QueuesAt, SameWaits, Boost, MtxPlace;
    var t := k.cur[c];
    var b := Boost(k, m, t);
    MtxBlocksIs(k, c, m, x);
    MayCallCaller(k, c, Loc(m, x));
    TlocIsPark(k, c, m, x);
    BoostKeepsInv(k, m, t);
    BoostMayQueue(k, m, t);
    LockPlaceFits(k, c, m);
    BoostSameWaits(k, c, m, x);
    QueuesAlike(k, b, MtxQ(m), t, MtxPlace(k, m, t));
    ParkedSleeps(b, t, Some((MtxQ(m), MtxPlace(k, m, t))), Limit(x));
    SleepsAlike(k, b, Exec(k, c, Loc(m, x)).0, MtxQ(m), t, Limit(x));
  }

  // ----- Staying awake, and asking for a reschedule -----

  /** The call wakes a waiting task by wup_tsk. */
  ghost predicate WakesUp(k: KState, c: nat, call: Call) {
    && Shape(k) && call.Wup? && IsTask(Target(k, c, call.t)) && k.tsk[Target(k, c, call.t)].stat == WAI
  }

  /** The caller's state is as before, except that a wup_tsk that wakes somebody makes it RDY and asks both CPUs to
      reschedule. */
  ghost predicate StaysAwake(k: KState, r: KState, c: nat, call: Call) {
    && Shape(k) && Shape(r) && c < 2
    && r.tsk[k.cur[c]].stat == (if WakesUp(k, c, call) then RDY else k.tsk[k.cur[c]].stat)
    && r.flag == if WakesUp(k, c, call) then [true, true] else k.flag
  }

  /** A call that does not sleep leaves its caller awake. */
  lemma CallerAwake(k: KState, c: nat, call: Call)
    requires Inv(k) && Shape(k) && MayCall(k, c, call) && c < 2 && !Sleeps(k, c, call)
    ensures StaysAwake(k, Exec(k, c, call).0, c, call)
  {
    hide Inv, QShape, MayCall, SlpTsk, TslpTsk, DlyTsk, WupTsk, ActTsk, SigSem, TwaiSem, TlocMtx, UnlMtx, StaysAwake,
      OwnersOk;
    MayCallCaller(k, c, call);
    match call
    case Slp => AwakeSleep(k, c, call);
    case Tslp(x) => AwakeSleep(k, c, call);
    case Dly(d) => AwakeDelay(k, c, d);
    case Wup(id) => AwakeWup(k, c, id);
    case Act(id) => AwakeAct(k, c, id);
    case Sig(s) => AwakeSig(k, c, s);
    case Twai(s, x) => AwakeTwai(k, c, s, x);
    case Loc(m, x) => AwakeLoc(k, c, m, x);
    case Unl(m) => AwakeUnl(k, c, m);
    case _ => AwakePlain(k, c, call);
  }

  lemma AwakeSleep(k: KState, c: nat, call: Call)
    requires Shape(k) && WellTyped(c, call) && (call.Slp? || call.Tslp?) && Active(k.tsk[k.cur[c]])
    requires !Sleeps(k, c, call)
    ensures StaysAwake(k, Exec(k, c, call).0, c, call)
  {
    hide QShape, SlpTsk, TslpTsk;
    SleepTable(k, c, if call.Slp? then 0 else call.tmout);
  }

  lemma AwakeDelay(k: KState, c: nat, d: nat)
    requires Shape(k) && WellTyped(c, Dly(d)) && Active(k.tsk[k.cur[c]]) && d == 0
    ensures StaysAwake(k, DlyTsk(k, c, d).0, c, Dly(d))
  {
    hide QShape, DlyTsk;
    DelayTable(k, c, d);
  }

  lemma AwakeWup(k: KState, c: nat, id: nat)
    requires Shape(k) && WellTyped(c, Wup(id)) && Active(k.tsk[k.cur[c]])
    ensures StaysAwake(k, WupTsk(k, c, id).0, c, Wup(id))
  {
    hide QShape, WupTsk;
    if id < SLOTS { WakeTable(k, c, id); } else { NobodyWoken(k, c); }
  }

  lemma AwakeAct(k: KState, c: nat, id: nat)
    requires Shape(k) && WellTyped(c, Act(id)) && Active(k.tsk[k.cur[c]])
    ensures StaysAwake(k, ActTsk(k, c, id).0, c, Act(id))
  {
    hide QShape, ActTsk;
    if id < SLOTS { ActTable(k, c, id); } else { NobodyStarted(k, c, id); }
  }

  lemma AwakeSig(k: KState, c: nat, s: nat)
    requires Inv(k) && Shape(k) && c < 2 && Active(k.tsk[k.cur[c]])
    ensures StaysAwake(k, SigSem(k, s).0, c, Sig(s))
  {
    hide LinksOk, CpuOk, SemOk, MtxOk, OwnOk, IdleOk, ReadyOk, WaitOk, WellFormed, AllIds, SigSem;
    if 1 <= s <= MAX_ID && k.q[SemQ(s)] != [] { QueueHead(k, SemQ(s)); }
    SignalTable(k, s);
  }

  lemma AwakeTwai(k: KState, c: nat, s: nat, x: nat)
    requires Shape(k) && WellTyped(c, Twai(s, x)) && Active(k.tsk[k.cur[c]]) && !SemBlocks(k, s, x)
    ensures StaysAwake(k, TwaiSem(k, c, s, x).0, c, Twai(s, x))
  {
    hide QShape, TwaiSem;
    TwaiTable(k, c, s, x);
  }

  lemma AwakeLoc(k: KState, c: nat, m: nat, x: nat)
    requires Shape(k) && WellTyped(c, Loc(m, x)) && Active(k.tsk[k.cur[c]]) && !MtxBlocks(k, c, m, x)
    ensures StaysAwake(k, TlocMtx(k, c, m, x).0, c, Loc(m, x))
  {
    hide QShape, TlocMtx;
    FreeLockTable(k, c, m, x);
  }

  lemma AwakeUnl(k: KState, c: nat, m: nat)
    requires Inv(k) && Shape(k) && WellTyped(c, Unl(m)) && Active(k.tsk[k.cur[c]])
    ensures StaysAwake(k, UnlMtx(k, c, m).0, c, Unl(m))
  {
    hide LinksOk, CpuOk, SemOk, MtxOk, OwnOk, IdleOk, ReadyOk, WaitOk, WellFormed, AllIds, PassMtx, Settle;
    if Unlocks(k, c, m) {
      if k.q[MtxQ(m)] != [] { QueueHead(k, MtxQ(m)); }
      PassTable(k, m);
      SettleTable(PassMtx(k, m), k.cur[c]);
    }
  }

  lemma AwakePlain(k: KState, c: nat, call: Call)
    requires Shape(k) && WellTyped(c, call) && Active(k.tsk[k.cur[c]])
    requires call.Cre? || call.CreS? || call.Pol? || call.CreM?
    ensures StaysAwake(k, Exec(k, c, call).0, c, call)
  {
    hide QShape;
  }

  /** The caller waits if the call is to put it to sleep and does not otherwise; both CPUs are asked to reschedule if it
      waits or a wup_tsk has woken somebody, and not otherwise. */
  ghost predicate SleepsExactly(k: KState, r: KState, c: nat, call: Call) {
    && Shape(k) && Shape(r) && c < 2
    && (r.tsk[k.cur[c]].stat == WAI <==> Sleeps(k, c, call))
    && r.flag == if Sleeps(k, c, call) || WakesUp(k, c, call) then [true, true] else k.flag
  }

  /** A call puts its caller to sleep exactly when it should, and asks for a reschedule exactly when it does or when a
      wup_tsk wakes somebody. */
  lemma SleepsIff(k: KState, c: nat, call: Call)
    requires Inv(k) && MayCall(k, c, call) && Shape(k) && c < 2
    ensures SleepsExactly(k, Exec(k, c, call).0, c, call)
  {
    hide Inv, MayCall, Exec, Sleeps, QShape, OwnersOk;
    MayCallCaller(k, c, call);
    if Sleeps(k, c, call) { CallerSleeps(k, c, call); } else { CallerAwake(k, c, call); }
  }

  // ----- Waking -----

  /** The return value a woken task sees. */
  ghost function WakeCode(k: KState, call: Call, t: nat): int {
    if call.Wup? && t < |k.tsk| then k.tsk[t].eax else E_OK
  }

  /** A signal wakes the first waiter of the semaphore, an unlock the first of the mutex, wup_tsk its target: the task
      is ready, in its ready queue and in no other queue, its timeout cancelled, and sees the right return value. */
  lemma CallWakes(k: KState, c: nat, call: Call, t: nat)
    requires Inv(k) && MayCall(k, c, call) && Shape(k) && IsTask(t) && k.tsk[t].stat == WAI && Wakes(k, c, call, t)
    ensures Ended(Exec(k, c, call).0, t, WakeCode(k, call, t)) && Exec(k, c, call).1 == E_OK
  {
    hide Inv, MayCall, Exec, QShape, OwnersOk, Ended, Wakes;
    ExecKeepsInv(k, c, call);
    MayCallCaller(k, c, call);
    WokenReady(k, c, call, t);
    ReadyIsEnded(Exec(k, c, call).0, t);
  }

  ghost predicate NowReady(r: KState, t: nat, e: int) {
    t < |r.tsk| && r.tsk[t].stat == RDY && r.tsk[t].eax == e
  }

  lemma WokenReady(k: KState, c: nat, call: Call, t: nat)
    requires Shape(k) && WellTyped(c, call) && IsTask(t) && k.tsk[t].stat == WAI && Wakes(k, c, call, t)
    requires Active(k.tsk[k.cur[c]])
    ensures NowReady(Exec(k, c, call).0, t, WakeCode(k, call, t)) && Exec(k, c, call).1 == E_OK
  {
    hide QShape, WupTsk, SigSem, UnlMtx;
    match call
    case Wup(id) => WakeTable(k, c, id);
    case Sig(s) => SignalWakes(k, s, t);
    case Unl(m) => UnlockWakes(k, c, m, t);
  }

  lemma SignalWakes(k: KState, s: nat, t: nat)
    requires Shape(k) && 1 <= s <= MAX_ID && k.sem[s].act && k.q[SemQ(s)] != [] && k.q[SemQ(s)][0] == t && IsTask(t)
    ensures NowReady(SigSem(k, s).0, t, E_OK) && SigSem(k, s).1 == E_OK
  {
    hide AllIds, SigSem;
    SignalTable(k, s);
    SigIs(k, s);
  }

  lemma UnlockWakes(k: KState, c: nat, m: nat, t: nat)
    requires Shape(k) && c < 2 && Unlocks(k, c, m) && k.q[MtxQ(m)] != [] && k.q[MtxQ(m)][0] == t && t != k.cur[c]
    ensures NowReady(UnlMtx(k, c, m).0, t, E_OK) && UnlMtx(k, c, m).1 == E_OK
  {
    hide AllIds, PassMtx, Settle;
    PassTable(k, m);
    SettleTable(PassMtx(k, m), k.cur[c]);
  }

  /** act_tsk of a dormant task makes it ready, in its ready queue and in no other. */
  lemma CallStarts(k: KState, c: nat, id: nat)
    requires Inv(k) && MayCall(k, c, Act(id)) && Shape(k) && IsTask(id) && k.tsk[id].stat == DMT
    ensures Ended(Exec(k, c, Act(id)).0, id, k.tsk[id].eax) && Exec(k, c, Act(id)).1 == E_OK
  {
    hide Inv, MayCall, QShape, OwnersOk, Ended, ActTsk;
    ExecKeepsInv(k, c, Act(id));
    MayCallCaller(k, c, Act(id));
    ActTable(k, c, id);
    ReadyIsEnded(Exec(k, c, Act(id)).0, id);
  }

  // ----- Asking for a reschedule, and answering -----

  /** A dispatch clears the request of its own CPU only, and without a request does nothing. */
  lemma DispatchAnswers(k: KState, c: nat)
    requires Shape(k) && c < 2
    ensures Dispatch(k, c).flag == k.flag[c := false]
    ensures !k.flag[c] ==> Dispatch(k, c) == k
  {
    hide QShape, Pick;
  }

  lemma ExpireLoopFlag(k: KState, woken: bool)
    requires BaseInv(k) && InRange(k.q[Tmo], k.delta) && Shape(k)
    ensures ExpireLoop(k, woken).flag
         == if woken || Due(k.q[Tmo], k.delta) > 0 then [true, true] else k.flag
    decreases |k.q[Tmo]|
  {
    hide LinksOk, MtxOk, SemOk, CpuOk, ReadyOk, WaitOk, IdleOk, AllIds, Expire, NoDup;
    var s := k.q[Tmo];
    if s != [] && k.delta[s[0]] == 0 {
      ExpireIsRelease(k);
      ReleaseKeepsBase(k, s[0], Expire(k));
      TmoNoDup(k);
      DueStep(s, k.delta);
      ExpireLoopFlag(Expire(k), true);
    }
  }

  /** The wait of some task has one tick left. */
  ghost predicate SomeoneDue(k: KState) {
    Shape(k) && InRange(k.q[Tmo], k.delta) && exists u :: u in k.q[Tmo] && Remaining(k.q[Tmo], k.delta, u) == 1
  }

  lemma DueIsSomeone(k: KState)
    requires Inv(k) && Shape(k)
    ensures SomeoneDue(k) <==> Due(k.q[Tmo], Ticked(k.q[Tmo], k.delta)) > 0
  {
    hide LinksOk, CpuOk, SemOk, MtxOk, OwnOk, IdleOk, ReadyOk, WaitOk, AllIds, Remaining, Ticked, Due;
    var s := k.q[Tmo];
    TickExact(s, k.delta);
    var n := Due(s, Ticked(s, k.delta));
    DuePrefix(s, n);
    if n > 0 {
      HeadIsTask(k, Tmo);
      assert s[0] in s[..n];
      TimedWaitWaits(k, s[0], Remaining(s, k.delta, s[0]));
    } else {
      assert s[n..] == s;
    }
  }

  /** A tick asks both CPUs to reschedule exactly when it wakes somebody. */
  lemma TickAsks(k: KState)
    requires Inv(k) && Shape(k)
    ensures Tick(k).flag == if SomeoneDue(k) then [true, true] else k.flag
  {
    hide LinksOk, CpuOk, SemOk, MtxOk, OwnOk, IdleOk, ReadyOk, WaitOk, AllIds, Due, ExpireLoop, SomeoneDue;
    DueIsSomeone(k);
    ExpireLoopFlag(k.(delta := Ticked(k.q[Tmo], k.delta)), false);
  }
}
