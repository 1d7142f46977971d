/** Runs from start-up that end in a call whose guard does not hold, one for every guard the code does not check. */
module KernelWitnesses {
  import opened Links
  import opened Timeouts
  import opened KernelState
  import opened KernelInvariant
  import opened KernelSteps
  import opened KernelMutex
  import opened KernelTick
  import opened KernelRuns
  import opened KernelTheorems
  import opened KernelGuards

  /** ops leads from the start state to state k. */
  ghost predicate Leads(ops: seq<Op>, k: KState) {
    exists ks :: IsRun(ks, ops) && ks[0] == Boot() && ks[|ops|] == k
  }

  lemma LeadsStart()
    ensures Leads([], Boot())
  {
    hide Boot;
    assert IsRun([Boot()], []);
  }

  lemma LeadsNext(ops: seq<Op>, k: KState, op: Op)
    requires Leads(ops, k) && Enabled(k, op)
    ensures Leads(ops + [op], Apply(k, op)) && (Inv(k) ==> Inv(Apply(k, op)))
  {
    hide Enabled, Apply, Boot, Inv;
    var ks :| IsRun(ks, ops) && ks[0] == Boot() && ks[|ops|] == k;
    var r, l := ks + [Apply(k, op)], ops + [op];
    forall i {:trigger l[i]} | 0 <= i < |l| ensures Enabled(r[i], l[i]) && r[i + 1] == Apply(r[i], l[i]) {
      if i < |ops| { assert Enabled(ks[i], ops[i]); }
    }
    assert IsRun(r, l);
    if Inv(k) { StepKeepsInv(k, op); }
  }

  /** The run ends in a state where the call is made by a ready task and breaks the invariant. */
  ghost predicate Breaks(ops: seq<Op>, c: nat, call: Call) {
    exists k :: Leads(ops, k) && Inv(k) && WellTyped(c, call) && Caller(k, c) && !Inv(Exec(k, c, call).0)
  }

  lemma BreaksIf(ops: seq<Op>, k: KState, c: nat, call: Call)
    requires Leads(ops, k) && Inv(k) && WellTyped(c, call) && Caller(k, c) && !MayCall(k, c, call)
    ensures Breaks(ops, c, call)
  {
    hide Inv, Exec, MayCall, Leads, Caller;
    InvIsShape(k);
    CallGuardExact(k, c, call);
  }

  // ----- What the steps of the runs do -----

  /** The first tasks of both CPUs are current and ready. */
  ghost predicate BothReady(k: KState) {
    Shape(k) && k.cur == [1, 2] && Active(k.tsk[1]) && Active(k.tsk[2])
  }

  lemma BootFacts()
    ensures var k := Boot();
            && Leads([], k) && Inv(k) && BothReady(k) && (forall t: nat :: IsTask(t) ==> k.tsk[t] == BootTask(t))
            && k.sem[1] == Sem(false, 0, 0, 0) && k.mtx[1] == Mtx(false, false, 0, 0, 0)
            && SemQ(1) in k.q && k.q[SemQ(1)] == [] && MtxQ(1) in k.q && k.q[MtxQ(1)] == []
  {
    hide Boot, Inv, Leads;
    LeadsStart();
    BootInv();
    BootShape();
    BootTables();
    SemHead();
  }

  lemma SemMade(k: KState)
    requires BothReady(k) && !k.sem[1].act
    ensures var op := Syscall(0, CreS(1, 0, 0, 1));
            Enabled(k, op) && Apply(k, op) == SetEax(k.(sem := k.sem[1 := Sem(true, 0, 0, 1)]), 1, E_OK)
  {}

  lemma MtxMade(k: KState)
    requires BothReady(k) && k.mtx[1] == Mtx(false, false, 0, 0, 0)
    ensures var op := Syscall(0, CreM(1, 0, 0));
            Enabled(k, op) && Apply(k, op) == SetEax(k.(mtx := k.mtx[1 := Mtx(true, false, 0, 0, 0)]), 1, E_OK)
  {}

  lemma MtxTaken(k: KState)
    requires BothReady(k) && k.mtx[1] == Mtx(true, false, 0, 0, 0)
    ensures var op := Syscall(0, Loc(1, TMO_FEVR));
            && Enabled(k, op)
            && Apply(k, op) == SetEax(Inc(k.(mtx := k.mtx[1 := Mtx(true, true, 1, 0, 0)]), 1), 1, E_OK)
  {}

  lemma WakeUpQueued(k: KState, c: nat)
    requires BothReady(k) && c < 2 && k.tsk[k.cur[c]].wupcnt == 0
    ensures var op, t := Syscall(c, Wup(0)), k.cur[c];
            && Enabled(k, op)
            && Apply(k, op) == SetEax(SetTsk(k, t, k.tsk[t].(wupcnt := 1)), t, E_OK)
  {
    hide QShape;
  }

  /** After a call that blocks, the caller waits and everyone else is where it was. */
  ghost predicate Asleep(k: KState, r: KState, t: nat)
    requires Shape(k)
  {
    && Shape(r) && IsTask(t) && r.cur == k.cur && r.tsk[t] == k.tsk[t].(stat := WAI, eax := r.tsk[t].eax)
    && r.mtx == k.mtx && r.flag == [true, true]
    && forall u: nat :: IsTask(u) && u != t ==> r.tsk[u] == k.tsk[u]
  }

  lemma SemWaited(k: KState)
    requires BothReady(k) && k.sem[1] == Sem(true, 0, 0, 1) && k.tsk[1].wupcnt == 0
    ensures var op := Syscall(0, Twai(1, TMO_FEVR));
            Enabled(k, op) && Asleep(k, Apply(k, op), 1) && 1 in Apply(k, op).q[SemQ(1)]
  {
    hide AllIds, InsertAt, Without, Park, TwaiSem;
    SemHead();
    TwaiIsPark(k, 0, 1, TMO_FEVR);
    var w := Some((SemQ(1), SemPlace(k, 0, 1)));
    ParkQueues(k, 1, w, None);
    InsertMembers(k.q[SemQ(1)], SemPlace(k, 0, 1), 1);
  }

  lemma SemHead()
    ensures ValidHead(SemQ(1)) && ValidHead(MtxQ(1)) && ValidHead(Tmo)
  {}

  lemma Slept(k: KState)
    requires BothReady(k) && k.tsk[1].wupcnt == 0
    ensures var op := Syscall(0, Slp); Enabled(k, op) && Asleep(k, Apply(k, op), 1)
  {
    hide QShape, InsertAt, Without, Park, SlpTsk;
    SleepIsPark(k, 0, Slp);
    ParkQueues(k, 1, None, None);
  }

  // ----- The witnesses -----

  /** tslp_tsk(0) as the very first call. */
  lemma ZeroTimeoutWitness()
    ensures Breaks([], 0, Tslp(0))
  {
    hide Boot, Leads, Inv;
    BootFacts();
    BreaksIf([], Boot(), 0, Tslp(0));
  }

  /** A semaphore that begins above its maximum. */
  lemma CreSemWitness()
    ensures Breaks([], 0, CreS(1, 0, 2, 1))
  {
    hide Boot, Leads, Inv;
    BootFacts();
    BreaksIf([], Boot(), 0, CreS(1, 0, 2, 1));
  }

  /** At the largest maximum a signal is accepted at the maximum, and the count falls back to 0. */
  lemma SignalWrapsWitness()
    ensures var k := CreSem(Boot(), 1, 0, UINT_MOD - 1, UINT_MOD - 1).0;
            Shape(k) && SigSem(k, 1).1 == E_OK && SigSem(k, 1).0.sem[1].cnt == 0
  {
    hide Boot, Inv, Leads, AllIds;
    BootFacts();
  }

  /** Task 2 may not wake task 1, which waits for semaphore 1. */
  lemma WaiterIsWoken(k: KState)
    requires Shape(k) && k.cur == [1, 2] && Active(k.tsk[2]) && k.tsk[1].stat == WAI && 1 in k.q[SemQ(1)]
    ensures Caller(k, 1) && !MayCall(k, 1, Wup(1))
  {
    hide AllIds;
    assert ValidHead(SemQ(1)) && Queued(k.q, W, 1);
  }

  /** A task waits for a semaphore and is woken by wup_tsk. */
  lemma WupWitness()
    ensures Breaks([Syscall(0, CreS(1, 0, 0, 1)), Syscall(0, Twai(1, TMO_FEVR))], 1, Wup(1))
  {
    hide Boot, Leads, Inv, Apply, Enabled, AllIds;
    BootFacts();
    SemMade(Boot());
    var o1, o2 := Syscall(0, CreS(1, 0, 0, 1)), Syscall(0, Twai(1, TMO_FEVR));
    assert [] + [o1] == [o1] && [o1] + [o2] == [o1, o2];
    LeadsNext([], Boot(), o1);
    var k1 := Apply(Boot(), o1);
    SemWaited(k1);
    LeadsNext([o1], k1, o2);
    var k2 := Apply(k1, o2);
    WaiterIsWoken(k2);
    BreaksIf([o1, o2], k2, 1, Wup(1));
  }

  /** A task with a queued wake-up waits for a semaphore. */
  lemma TwaiWitness()
    ensures Breaks([Syscall(0, CreS(1, 0, 0, 1)), Syscall(0, Wup(0))], 0, Twai(1, TMO_FEVR))
  {
    hide Boot, Leads, Inv, Apply, Enabled;
    BootFacts();
    SemMade(Boot());
    var o1, o2 := Syscall(0, CreS(1, 0, 0, 1)), Syscall(0, Wup(0));
    assert [] + [o1] == [o1] && [o1] + [o2] == [o1, o2];
    LeadsNext([], Boot(), o1);
    var k1 := Apply(Boot(), o1);
    WakeUpQueued(k1, 0);
    LeadsNext([o1], k1, o2);
    BreaksIf([o1, o2], Apply(k1, o2), 0, Twai(1, TMO_FEVR));
  }

  /** Asking for a wake-up of one's own before waiting for a lock. */
  lemma TlocWakeUpWitness()
    ensures Breaks([Syscall(0, CreM(1, 0, 0)), Syscall(0, Loc(1, TMO_FEVR)), Syscall(1, Wup(0))], 1, Loc(1, TMO_FEVR))
  {
    hide Boot, Leads, Inv, Apply, Enabled, QShape;
    var o1, o2, o3 := Syscall(0, CreM(1, 0, 0)), Syscall(0, Loc(1, TMO_FEVR)), Syscall(1, Wup(0));
    var k2 := Locked();
    WakeUpQueued(k2, 1);
    assert [o1, o2] + [o3] == [o1, o2, o3];
    LeadsNext([o1, o2], k2, o3);
    BreaksIf([o1, o2, o3], Apply(k2, o3), 1, Loc(1, TMO_FEVR));
  }

  /** The state after cre_mtx and loc_mtx by the first task. */
  lemma Locked() returns (k: KState)
    ensures Leads([Syscall(0, CreM(1, 0, 0)), Syscall(0, Loc(1, TMO_FEVR))], k) && Inv(k) && BothReady(k)
    ensures k.mtx[1] == Mtx(true, true, 1, 0, 0) && MtxQ(1) in k.q && k.q[MtxQ(1)] == []
    ensures k.tsk[1].pri == 15 && k.tsk[1].wupcnt == 0
    ensures forall t: nat :: IsTask(t) && t != 1 ==> k.tsk[t] == BootTask(t)
  {
    hide Boot, Leads, Inv, Apply, Enabled, QShape;
    BootFacts();
    MtxMade(Boot());
    var o1, o2 := Syscall(0, CreM(1, 0, 0)), Syscall(0, Loc(1, TMO_FEVR));
    assert [] + [o1] == [o1] && [o1] + [o2] == [o1, o2];
    LeadsNext([], Boot(), o1);
    var k1 := Apply(Boot(), o1);
    MtxTaken(k1);
    LeadsNext([o1], k1, o2);
    k := Apply(k1, o2);
  }

  lemma LockWaited(k: KState)
    requires BothReady(k) && k.mtx[1] == Mtx(true, true, 1, 0, 0) && k.tsk[2].wupcnt == 0
      && k.tsk[1].pri <= k.tsk[2].pri
    requires k.q[MtxQ(1)] == []
    ensures var op := Syscall(1, Loc(1, 5));
            var r := Apply(k, op);
            && Enabled(k, op) && Asleep(k, r, 2) && r.q[MtxQ(1)] == [2] && 2 in r.q[Tmo]
  {
    hide AllIds, Without, Park, TlocMtx;
    SemHead();
    TlocIsPark(k, 1, 1, 5);
    var w := Some((MtxQ(1), MtxPlace(k, 1, 2)));
    ParkQueues(k, 2, w, Some(5));
    var i: nat :| i <= |k.q[Tmo]| && Park(k, 2, w, Some(5)).q[Tmo] == InsertAt(k.q[Tmo], i, 2);
    InsertMembers(k.q[Tmo], i, 2);
  }

  /** A task waits for a lock with a timeout, and the owner unlocks. */
  lemma UnlWitness()
    ensures Breaks([Syscall(0, CreM(1, 0, 0)), Syscall(0, Loc(1, TMO_FEVR)), Syscall(1, Loc(1, 5))], 0, Unl(1))
  {
    hide Boot, Leads, Inv, Apply, Enabled, QShape;
    var o1, o2, o3 := Syscall(0, CreM(1, 0, 0)), Syscall(0, Loc(1, TMO_FEVR)), Syscall(1, Loc(1, 5));
    var k2 := Locked();
    LockWaited(k2);
    assert [o1, o2] + [o3] == [o1, o2, o3];
    LeadsNext([o1, o2], k2, o3);
    OwnerUnlocks(Apply(k2, o3));
    BreaksIf([o1, o2, o3], Apply(k2, o3), 0, Unl(1));
  }

  /** Task 1 may not unlock mutex 1: the timeout of the first waiter is running. */
  lemma OwnerUnlocks(k: KState)
    requires Shape(k) && k.cur == [1, 2] && Active(k.tsk[1]) && k.mtx[1] == Mtx(true, true, 1, 0, 0)
    requires k.q[MtxQ(1)] == [2] && 2 in k.q[Tmo]
    ensures Caller(k, 0) && !MayCall(k, 0, Unl(1))
  {
    hide QShape;
    assert Unlocks(k, 0, 1) && !MayPass(k, 1);
  }

  lemma Dispatched(k: KState, c: nat, t: nat)
    requires Inv(k) && c < 2 && k.flag == [true, true] && Candidate(k, c, t)
    requires forall u: nat :: Candidate(k, c, u) && u != t ==> k.tsk[t].pri < k.tsk[u].pri
    ensures var r := Apply(k, Resume(c));
            && Enabled(k, Resume(c)) && Shape(r) && r.cur == k.cur[c := t] && r.tsk[t].stat == RUN
            && (forall u: nat :: IsTask(u) ==> r.tsk[u] == k.tsk[u].(stat := r.tsk[u].stat))
            && (forall u: nat :: IsTask(u) && !Active(k.tsk[u]) ==> !Active(r.tsk[u]))
            && r.mtx == k.mtx
  {
    hide ReadyOk, LinksOk, WaitOk, CpuOk, SemOk, MtxOk, OwnOk, IdleOk, WellFormed, AllIds, Pick, OwnersOk;
    DispatchOptimal(k, c);
  }

  /** The first task sleeps, the idle task of its CPU runs and sleeps too. */
  lemma IdleWitness()
    ensures Breaks([Syscall(0, Slp), Resume(0)], 0, Slp)
  {
    hide Boot, Leads, Inv, Apply, Enabled, QShape;
    BootFacts();
    var o1, o2 := Syscall(0, Slp), Resume(0);
    assert [] + [o1] == [o1] && [o1] + [o2] == [o1, o2];
    Slept(Boot());
    LeadsNext([], Boot(), o1);
    var k1 := Apply(Boot(), o1);
    Dispatched(k1, 0, IDLE0);
    LeadsNext([o1], k1, o2);
    BreaksIf([o1, o2], Apply(k1, o2), 0, Slp);
  }

  lemma TaskMade(k: KState)
    requires Shape(k) && k.cur == [1, 2] && Active(k.tsk[2]) && k.tsk[7].stat == NON
    ensures var op := Syscall(1, Cre(7, 1));
            Enabled(k, op) && Apply(k, op) == SetEax(SetTsk(k, 7, Tcb(DMT, 1, 1, 0, 0, 0, 1, 0)), 2, E_OK)
  {
    hide QShape;
  }

  lemma TaskStarted(k: KState)
    requires Shape(k) && k.cur == [1, 2] && Active(k.tsk[2]) && k.tsk[7].stat == DMT
    ensures var op := Syscall(1, Act(7));
            var r := Apply(k, op);
            && Enabled(k, op) && Shape(r) && r == k.(tsk := r.tsk, q := r.q)
            && r.tsk == k.tsk[7 := k.tsk[7].(stat := RDY)][2 := k.tsk[2].(eax := E_OK)]
  {
    hide AllIds, InsertAt;
    SchedInsEffect(SetStat(k, 7, RDY), 7);
  }

  /** The state after the owner of a locked mutex goes to sleep. */
  lemma OwnerAsleep() returns (k: KState)
    ensures Leads([Syscall(0, CreM(1, 0, 0)), Syscall(0, Loc(1, TMO_FEVR)), Syscall(0, Slp)], k) && Inv(k) && Shape(k)
    ensures k.cur == [1, 2] && k.flag == [true, true] && k.mtx[1] == Mtx(true, true, 1, 0, 0)
    ensures k.tsk[1].pri == 15 && k.tsk[1].stat == WAI
    ensures forall t: nat :: IsTask(t) && t != 1 ==> k.tsk[t] == BootTask(t)
  {
    hide Boot, Leads, Inv, Apply, Enabled, QShape;
    var o1, o2, o3 := Syscall(0, CreM(1, 0, 0)), Syscall(0, Loc(1, TMO_FEVR)), Syscall(0, Slp);
    var k2 := Locked();
    Slept(k2);
    assert [o1, o2] + [o3] == [o1, o2, o3];
    LeadsNext([o1, o2], k2, o3);
    k := Apply(k2, o3);
  }

  /** The owner of a mutex sleeps, and a more urgent task waits for the mutex. */
  lemma BoostWitness()
    ensures Breaks([Syscall(0, CreM(1, 0, 0)), Syscall(0, Loc(1, TMO_FEVR)), Syscall(0, Slp), Syscall(1, Cre(7, 1)),
                    Syscall(1, Act(7)), Resume(1)], 1, Loc(1, TMO_FEVR))
  {
    hide Boot, Leads, Inv, Apply, Enabled, QShape;
    var o1, o2, o3 := Syscall(0, CreM(1, 0, 0)), Syscall(0, Loc(1, TMO_FEVR)), Syscall(0, Slp);
    var o4, o5, o6 := Syscall(1, Cre(7, 1)), Syscall(1, Act(7)), Resume(1);
    assert [o1, o2, o3] + [o4] == [o1, o2, o3, o4] && [o1, o2, o3, o4] + [o5] == [o1, o2, o3, o4, o5];
    assert [o1, o2, o3, o4, o5] + [o6] == [o1, o2, o3, o4, o5, o6];
    var k3 := OwnerAsleep();
    TaskMade(k3);
    LeadsNext([o1, o2, o3], k3, o4);
    var k4 := Apply(k3, o4);
    TaskStarted(k4);
    LeadsNext([o1, o2, o3, o4], k4, o5);
    var k5 := Apply(k4, o5);
    Dispatched(k5, 1, 7);
    LeadsNext([o1, o2, o3, o4, o5], k5, o6);
    UrgentLocks(k3, Apply(k5, o6));
    BreaksIf([o1, o2, o3, o4, o5, o6], Apply(k5, o6), 1, Loc(1, TMO_FEVR));
  }

  /** Task 7 may not lock mutex 1: it would boost task 1, which sleeps. */
  lemma UrgentLocks(k: KState, r: KState)
    requires Shape(k) && k.mtx[1] == Mtx(true, true, 1, 0, 0)
    requires Shape(r) && r.cur == [1, 7] && r.mtx == k.mtx && r.tsk[7].pri == 1 && r.tsk[7].stat == RUN
    requires r.tsk[1].pri == 15 && !Active(r.tsk[1])
    ensures Caller(r, 1) && !MayCall(r, 1, Loc(1, TMO_FEVR))
  {
    hide QShape;
    assert MtxBlocks(r, 1, 1, TMO_FEVR) && Boosts(r, 1, 7);
  }
}
