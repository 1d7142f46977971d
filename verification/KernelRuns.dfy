/** Runs of the two-CPU kernel: service calls of the current tasks, timer ticks and dispatches in any order. */
module KernelRuns {
  import opened Links
  import opened Timeouts
  import opened KernelState
  import opened KernelInvariant
  import opened KernelSteps
  import opened KernelMutex
  import opened KernelTick

  datatype Call =
    | Cre(t: nat, p: Pri) | Act(t: nat) | Slp | Tslp(tmout: nat) | Dly(d: nat) | Wup(t: nat)
    | CreS(s: nat, atr: nat, cnt: nat, max: nat) | Sig(s: nat) | Pol(s: nat) | Twai(s: nat, tmout: nat)
    | CreM(m: nat, atr: nat, ceil: nat) | Loc(m: nat, tmout: nat) | Unl(m: nat)

  datatype Op = Syscall(c: nat, call: Call) | TimerTick | Resume(c: nat)

  predicate WellTyped(c: nat, call: Call) {
    && c < 2
    && match call
       case Cre(t, _) => t != SLOTS
       case Tslp(tmout) => tmout < UINT_MOD
       case Dly(d) => d < UINT_MOD
       case Wup(t) => t <= SLOTS
       case Twai(_, tmout) => tmout < UINT_MOD
       case CreM(m, _, _) => m != SLOTS
       case Loc(_, tmout) => tmout < UINT_MOD
       case _ => true
  }

  ghost function Exec(k: KState, c: nat, call: Call): (r: (KState, int))
    requires Shape(k) && WellTyped(c, call)
    ensures Shape(r.0)
  {
    match call
    case Cre(t, p) => CreTsk(k, c, t, p)
    case Act(t) => ActTsk(k, c, t)
    case Slp => SlpTsk(k, c)
    case Tslp(tmout) => TslpTsk(k, c, tmout)
    case Dly(d) => DlyTsk(k, c, d)
    case Wup(t) => WupTsk(k, c, t)
    case CreS(s, atr, cnt, max) => CreSem(k, s, atr, cnt, max)
    case Sig(s) => SigSem(k, s)
    case Pol(s) => PolSem(k, s)
    case Twai(s, tmout) => TwaiSem(k, c, s, tmout)
    case CreM(m, atr, ceil) => CreMtx(k, m, atr, ceil)
    case Loc(m, tmout) => TlocMtx(k, c, m, tmout)
    case Unl(m) => UnlMtx(k, c, m)
  }

  /** A call is made by a ready current task. A call that blocks is not made by an idle task and, before an object wait,
      there is no queued wake-up; timeouts are at least 1. A lock wait does not boost an owner that waits itself, and a
      mutex is not passed on to a task whose timeout still runs. */
  ghost predicate MayCall(k: KState, c: nat, call: Call)
    requires Shape(k)
  {
    && WellTyped(c, call) && Caller(k, c)
    && match call
       case Slp => k.tsk[k.cur[c]].wupcnt == 0 ==> MaySleep(k, c)
       case Tslp(tmout) => k.tsk[k.cur[c]].wupcnt == 0 ==> tmout >= 1 && MaySleep(k, c)
       case Dly(d) => d != 0 ==> MaySleep(k, c)
       case Wup(t) => IsTask(t) && k.tsk[t].stat == WAI ==> !Queued(k.q, W, t)
       case CreS(s, atr, cnt, max) => 1 <= s <= MAX_ID && !k.sem[s].act ==> cnt <= max < UINT_MOD - 1
       case Twai(s, tmout) => SemBlocks(k, s, tmout) ==> MaySleep(k, c) && k.tsk[k.cur[c]].wupcnt == 0
       case Loc(m, tmout) => MayLock(k, c, m, tmout)
       case Unl(m) => Unlocks(k, c, m) ==> MayPass(k, m)
       case _ => true
  }

  ghost predicate Enabled(k: KState, op: Op) {
    && Shape(k)
    && match op
       case Syscall(c, call) => MayCall(k, c, call)
       case TimerTick => true
       case Resume(c) => c < 2
  }

  /** One step: c_intr_syscall stores the return code in the caller's EAX slot. */
  ghost function Apply(k: KState, op: Op): KState
    requires Enabled(k, op)
  {
    match op
    case Syscall(c, call) =>
      var (r, ret) := Exec(k, c, call);
      if k.cur[c] < |r.tsk| then SetEax(r, k.cur[c], ret) else r
    case TimerTick => Tick(k)
    case Resume(c) => Dispatch(k, c)
  }

  /** ks are the states of a run with the steps ops. */
  ghost predicate IsRun(ks: seq<KState>, ops: seq<Op>) {
    && |ks| == |ops| + 1
    && forall i {:trigger ops[i]} :: 0 <= i < |ops| ==> Enabled(ks[i], ops[i]) && ks[i + 1] == Apply(ks[i], ops[i])
  }

  lemma ExecKeepsInv(k: KState, c: nat, call: Call)
    requires Inv(k) && MayCall(k, c, call)
    ensures Inv(Exec(k, c, call).0)
  {
    hide Inv, SlpTsk, TslpTsk, DlyTsk, WupTsk, ActTsk, CreTsk, CreSem, SigSem, PolSem, TwaiSem, CreMtx, TlocMtx,
      UnlMtx, SemBlocks, MayLock, Unlocks, MayPass, MaySleep, Queued, Caller;
    match call
    case Cre(t, p) => CreTskKeepsInv(k, c, t, p);
    case Act(t) => ActKeepsInv(k, c, t);
    case Slp => SlpKeepsInv(k, c);
    case Tslp(tmout) => TslpKeepsInv(k, c, tmout);
    case Dly(d) => DlyKeepsInv(k, c, d);
    case Wup(t) => WupKeepsInv(k, c, t);
    case CreS(s, atr, cnt, max) => CreSemKeepsInv(k, s, atr, cnt, max);
    case Sig(s) => SigKeepsInv(k, s);
    case Pol(s) => PolKeepsInv(k, s);
    case Twai(s, tmout) => TwaiKeepsInv(k, c, s, tmout);
    case CreM(m, atr, ceil) => CreMtxKeepsInv(k, m, atr, ceil);
    case Loc(m, tmout) => TlocKeepsInv(k, c, m, tmout);
    case Unl(m) => UnlKeepsInv(k, c, m);
  }

  lemma EaxKeepsInv(k: KState, t: nat, v: int)
    requires Inv(k) && IsTask(t)
    ensures Inv(SetEax(k, t, v))
  {
    hide LinksOk, SemOk, MtxOk, OwnOk, CpuOk, ReadyOk, WaitOk, WellFormed, IdleOk, QShape;
    TouchKeepsInv(k, t, k.tsk[t].(eax := v));
  }

  lemma FlagKeepsInv(k: KState, f: seq<bool>)
    requires Inv(k) && |f| == 2
    ensures Inv(k.(flag := f))
  {
    hide LinksOk, SemOk, MtxOk, OwnOk, CpuOk, ReadyOk, WaitOk, WellFormed, IdleOk, QShape;
  }

  lemma CurIsTask(k: KState, c: nat)
    requires Shape(k) && c < 2
    ensures IsTask(k.cur[c])
  {}

  lemma InvIsShape(k: KState)
    requires Inv(k)
    ensures Shape(k)
  {}

  lemma StepKeepsInv(k: KState, op: Op)
    requires Inv(k) && Enabled(k, op)
    ensures Inv(Apply(k, op))
  {
    hide Inv, Exec, Tick, DoNext, MayCall, SetEax;
    match op
    case Syscall(c, call) =>
      ExecKeepsInv(k, c, call);
      MayCallCaller(k, c, call);
      CurIsTask(k, c);
      InvIsShape(Exec(k, c, call).0);
      EaxKeepsInv(Exec(k, c, call).0, k.cur[c], Exec(k, c, call).1);
    case TimerTick => TickEffect(k);
    case Resume(c) =>
      if k.flag[c] {
        DoNextKeepsInv(k, c);
        var r := DoNext(k, c).0;
        InvIsShape(r);
        FlagKeepsInv(r, r.flag[c := false]);
      }
  }

  lemma MayCallCaller(k: KState, c: nat, call: Call)
    requires Shape(k) && MayCall(k, c, call)
    ensures c < 2 && WellTyped(c, call) && IsTask(k.cur[c]) && Active(k.tsk[k.cur[c]])
  {}

  /** Every state of every run from a good state is good: queues, CPUs, semaphores, mutexes and idle tasks. */
  lemma {:induction false} RunKeepsInv(ks: seq<KState>, ops: seq<Op>, n: nat)
    requires IsRun(ks, ops) && Inv(ks[0]) && n <= |ops|
    ensures Inv(ks[n])
  {
    hide Inv, Apply, Enabled;
    if n > 0 {
      RunKeepsInv(ks, ops, n - 1);
      assert Enabled(ks[n - 1], ops[n - 1]) && ks[n] == Apply(ks[n - 1], ops[n - 1]);
      StepKeepsInv(ks[n - 1], ops[n - 1]);
    }
  }

  // ----- The state after start-up (tsk_init, sched_init, sem_init and proc_init) -----

  ghost function BootTask(t: nat): Tcb {
    if t == 1 then Tcb(RUN, 15, 15, 0, 0, 0, 0, 0)
    else if t == 2 then Tcb(RUN, 15, 15, 0, 0, 0, 1, 0)
    else if t == IDLE0 then Tcb(RDY, 16, 16, 0, 0, 0, 0, 0)
    else if t == IDLE1 then Tcb(RDY, 16, 16, 0, 0, 0, 1, 0)
    else Tcb(NON, 1, 1, 0, 0, 0, 0, 0)
  }

  ghost function AllHeads(): (r: set<Head>)
    ensures forall h :: h in r <==> ValidHead(h)
  {
    (set p: nat | 1 <= p <= TMAX_TPRI :: Ready(p)) + (set s: nat | 1 <= s <= MAX_ID :: SemQ(s))
    + (set m: nat | 1 <= m < SLOTS :: MtxQ(m)) + {Tmo}
  }

  ghost function BootQueue(h: Head): seq<nat> {
    if h == Ready(15) then [1, 2] else if h == Ready(16) then [IDLE0, IDLE1] else []
  }

  ghost function Boot(): KState {
    KState(seq(SLOTS, t requires 0 <= t => BootTask(t)), map h | h in AllHeads() :: BootQueue(h), seq(SLOTS, _ => 0),
           seq(MAX_ID + 1, _ => Sem(false, 0, 0, 0)), seq(SLOTS, _ => Mtx(false, false, 0, 0, 0)),
           [1, 2], [false, false])
  }

  lemma {:induction false} BootOwned(t: nat, n: nat)
    requires n < SLOTS
    ensures Owned(Boot().mtx, t, n) == 0
  {
    if n > 0 { BootOwned(t, n - 1); }
  }

  lemma BootShape()
    ensures var k := Boot();
            && Shape(k) && (forall h :: ValidHead(h) ==> k.q[h] == BootQueue(h))
            && (forall t: nat :: IsTask(t) ==> k.tsk[t] == BootTask(t))
  {}

  lemma BootLinks()
    ensures LinksOk(Boot().q)
  {
    hide Boot, BootQueue, AllIds;
    BootShape();
    QueuesApart();
    var q := Boot().q;
    forall h | h in q ensures q[h] == BootQueue(h) {}
  }

  lemma QueuesApart()
    ensures forall h :: NoDup(BootQueue(h))
    ensures forall g, h, t :: t in BootQueue(g) && t in BootQueue(h) ==> g == h
  {}

  lemma BootReady()
    ensures var k := Boot(); Shape(k) && ReadyOk(k.tsk, k.q)
  {
    hide Boot;
    BootShape();
  }

  lemma BootWaits()
    ensures var k := Boot(); Shape(k) && WaitOk(k.tsk, k.q)
  {
    hide Boot;
    BootShape();
  }

  lemma BootTables()
    ensures var k := Boot();
            && k.cur == [1, 2] && |k.sem| == MAX_ID + 1 && |k.mtx| == SLOTS
            && (forall s :: 0 <= s <= MAX_ID ==> k.sem[s] == Sem(false, 0, 0, 0))
            && (forall m :: 0 <= m < SLOTS ==> k.mtx[m] == Mtx(false, false, 0, 0, 0))
  {
    hide BootTask, BootQueue;
  }

  lemma BootObjects()
    ensures var k := Boot(); Shape(k) && SemOk(k.tsk, k.q, k.sem) && MtxOk(k.tsk, k.q, k.mtx)
  {
    hide Boot, BootTask;
    BootShape();
    BootTables();
  }

  lemma BootOwners()
    ensures var k := Boot(); Shape(k) && OwnOk(k.tsk, k.mtx)
  {
    hide Boot, BootQueue, Owned, QShape;
    var k := Boot();
    BootShape();
    forall t: nat | IsTask(t) ensures OwnAt(k.tsk[t], Owned(k.mtx, t, SLOTS - 1)) { BootOwned(t, SLOTS - 1); }
  }

  lemma BootInv()
    ensures Inv(Boot())
  {
    hide Boot, OwnOk, LinksOk, ReadyOk, WaitOk, SemOk, MtxOk, QShape;
    BootShape();
    BootTables();
    BootLinks();
    BootReady();
    BootWaits();
    BootObjects();
    BootOwners();
  }
}
