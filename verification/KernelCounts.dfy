/** Wake-up and activation requests are neither lost nor made up. */
module KernelCounts {
  import opened Links
  import opened Timeouts
  import opened KernelState
  import opened KernelInvariant
  import opened KernelSteps
  import opened KernelMutex
  import opened KernelTick
  import opened KernelRuns
  import opened KernelTables
  import opened KernelPriorities

  /** The task a call with this id is about; 0 stands for the caller. */
  function Target(k: KState, c: nat, id: nat): nat { if id == 0 && c < |k.cur| then k.cur[c] else id }

  ghost predicate Calls(k: KState, op: Op) { Shape(k) && op.Syscall? && WellTyped(op.c, op.call) }

  /** 1 for a wup_tsk that succeeds on task t while it is not waiting. */
  ghost function Requested(k: KState, op: Op, t: nat): nat {
    if Calls(k, op) && op.call.Wup? && Target(k, op.c, op.call.t) == t && IsTask(t) && k.tsk[t].stat != WAI
       && Exec(k, op.c, op.call).1 == E_OK then 1 else 0
  }

  /** 1 for a slp_tsk or tslp_tsk of task t that returns at once: t does not wait afterwards. */
  ghost function Skipped(k: KState, op: Op, t: nat): nat {
    if Calls(k, op) && (op.call.Slp? || op.call.Tslp?) && k.cur[op.c] == t && IsTask(t)
       && Exec(k, op.c, op.call).0.tsk[t].stat != WAI then 1 else 0
  }

  /** 1 for an act_tsk that succeeds on task t while it is started. */
  ghost function Activated(k: KState, op: Op, t: nat): nat {
    if Calls(k, op) && op.call.Act? && Target(k, op.c, op.call.t) == t && IsTask(t) && Started(k.tsk[t])
       && Exec(k, op.c, op.call).1 == E_OK then 1 else 0
  }

  /** Task t goes on to exist, on the same CPU, with w wake-up requests and a activation requests more. */
  ghost predicate Counted(k: KState, r: KState, t: nat, w: int, a: int) {
    && t < |k.tsk| == |r.tsk| && (k.tsk[t].stat != NON ==> r.tsk[t].stat != NON)
    && r.tsk[t].cpu == k.tsk[t].cpu
    && r.tsk[t].wupcnt == k.tsk[t].wupcnt + w && r.tsk[t].actcnt == k.tsk[t].actcnt + a
  }

  // ----- One call -----

  lemma SleepCounts(k: KState, c: nat, call: Call, t: nat)
    requires Shape(k) && WellTyped(c, call) && (call.Slp? || call.Tslp?) && IsTask(t) && Active(k.tsk[k.cur[c]])
    ensures Counted(k, Exec(k, c, call).0, t, 0 - Skipped(k, Syscall(c, call), t), 0)
  {
    hide QShape, SlpTsk, TslpTsk;
    SleepTable(k, c, if call.Slp? then 0 else call.tmout);
  }

  lemma WakeCounts(k: KState, c: nat, id: nat, t: nat)
    requires Shape(k) && WellTyped(c, Wup(id)) && IsTask(t) && Active(k.tsk[k.cur[c]])
    ensures Counted(k, Exec(k, c, Wup(id)).0, t, Requested(k, Syscall(c, Wup(id)), t), 0)
  {
    hide QShape, WupTsk;
    if id < SLOTS { WakeTable(k, c, id); } else { NobodyWoken(k, c); }
  }

  lemma ActCounts(k: KState, c: nat, id: nat, t: nat)
    requires Shape(k) && WellTyped(c, Act(id)) && IsTask(t)
    ensures Counted(k, Exec(k, c, Act(id)).0, t, 0, Activated(k, Syscall(c, Act(id)), t))
  {
    hide QShape, ActTsk;
    if id < SLOTS { ActTable(k, c, id); } else { NobodyStarted(k, c, id); }
  }

  lemma UnlockCounts(k: KState, c: nat, m: nat, t: nat)
    requires Shape(k) && c < 2 && IsTask(t)
    ensures Counted(k, UnlMtx(k, c, m).0, t, 0, 0)
  {
    hide QShape, PassMtx, Settle;
    if Unlocks(k, c, m) {
      PassTable(k, m);
      SettleTable(PassMtx(k, m), k.cur[c]);
    }
  }

  lemma LockCounts(k: KState, c: nat, m: nat, x: nat, t: nat)
    requires Shape(k) && MayCall(k, c, Loc(m, x)) && IsTask(t)
    ensures Counted(k, TlocMtx(k, c, m, x).0, t, 0, 0)
  {
    hide QShape, TlocMtx, OwnersOk;
    if MtxBlocks(k, c, m, x) {
      MtxBlocksIs(k, c, m, x);
      LockTable(k, c, m, x);
    } else {
      FreeLockTable(k, c, m, x);
    }
  }

  lemma TwaiCounts(k: KState, c: nat, s: nat, x: nat, t: nat)
    requires Shape(k) && MayCall(k, c, Twai(s, x)) && IsTask(t)
    ensures Counted(k, TwaiSem(k, c, s, x).0, t, 0, 0)
  {
    hide QShape, TwaiSem;
    TwaiTable(k, c, s, x);
  }

  lemma OtherCallCounts(k: KState, c: nat, call: Call, t: nat)
    requires Shape(k) && MayCall(k, c, call) && IsTask(t) && k.tsk[t].stat != NON
    requires !call.Slp? && !call.Tslp? && !call.Wup? && !call.Act?
    ensures Counted(k, Exec(k, c, call).0, t, 0, 0)
  {
    hide QShape, MayCall, DlyTsk, SigSem, TwaiSem, TlocMtx, UnlMtx, SlpTsk, TslpTsk, WupTsk, ActTsk, Counted;
    MayCallCaller(k, c, call);
    match call
    case Dly(d) => DelayCounts(k, c, d, t);
    case Sig(s) => SignalCounts(k, s, t);
    case Twai(s, x) => TwaiCounts(k, c, s, x, t);
    case Loc(m, x) => LockCounts(k, c, m, x, t);
    case Unl(m) => UnlockCounts(k, c, m, t);
    case _ => PlainCounts(k, c, call, t);
  }

  lemma DelayCounts(k: KState, c: nat, d: nat, t: nat)
    requires Shape(k) && c < 2 && d < UINT_MOD && IsTask(t)
    ensures Counted(k, DlyTsk(k, c, d).0, t, 0, 0)
  {
    hide QShape, DlyTsk;
    DelayTable(k, c, d);
  }

  lemma SignalCounts(k: KState, s: nat, t: nat)
    requires Shape(k) && IsTask(t)
    ensures Counted(k, SigSem(k, s).0, t, 0, 0)
  {
    hide AllIds, SigSem;
    SignalTable(k, s);
  }

  lemma PlainCounts(k: KState, c: nat, call: Call, t: nat)
    requires Shape(k) && WellTyped(c, call) && IsTask(t) && k.tsk[t].stat != NON
    requires call.Cre? || call.CreS? || call.Pol? || call.CreM?
    ensures Counted(k, Exec(k, c, call).0, t, 0, 0)
  {
    hide QShape;
  }

  /** One call: a request more for each that is accepted, one less for each sleep that returns at once. */
  lemma CallCounts(k: KState, c: nat, call: Call, t: nat)
    requires Shape(k) && MayCall(k, c, call) && IsTask(t) && k.tsk[t].stat != NON
    ensures var op := Syscall(c, call);
            Counted(k, Exec(k, c, call).0, t, Requested(k, op, t) - Skipped(k, op, t), Activated(k, op, t))
  {
    hide Exec, MayCall, QShape, OwnersOk, Counted;
    MayCallCaller(k, c, call);
    if call.Slp? || call.Tslp? {
      SleepCounts(k, c, call, t);
    } else if call.Wup? {
      WakeCounts(k, c, call.t, t);
    } else if call.Act? {
      ActCounts(k, c, call.t, t);
    } else {
      OtherCallCounts(k, c, call, t);
    }
  }

  /** One step, tick or dispatch included. */
  lemma CountStep(k: KState, op: Op, t: nat)
    requires Inv(k) && Enabled(k, op) && IsTask(t) && Shape(k) && k.tsk[t].stat != NON
    ensures Counted(k, Apply(k, op), t, Requested(k, op, t) - Skipped(k, op, t), Activated(k, op, t))
  {
    hide Inv, Exec, MayCall, Tick, Dispatch, QShape, OwnersOk;
    match op
    case Syscall(c, call) =>
      MayCallCaller(k, c, call);
      CallCounts(k, c, call, t);
      CallTable(k, c, call);
    case TimerTick => TickEffect(k);
    case Resume(c) => DispatchCounts(k, c, t);
  }

  lemma DispatchCounts(k: KState, c: nat, t: nat)
    requires Inv(k) && c < 2 && IsTask(t)
    ensures Counted(k, Dispatch(k, c), t, 0, 0)
  {
    hide LinksOk, CpuOk, SemOk, MtxOk, OwnOk, IdleOk, ReadyOk, WaitOk, WellFormed, QShape, DoNext;
    DispatchTable(k, c);
    if k.flag[c] { DispatchOptimal(k, c); }
  }

  // ----- Over runs -----

  ghost function Total(f: (KState, Op) -> nat, ks: seq<KState>, ops: seq<Op>, n: nat): nat
    requires n <= |ops| < |ks|
  {
    if n == 0 then 0 else Total(f, ks, ops, n - 1) + f(ks[n - 1], ops[n - 1])
  }

  /** Over every run, for a task that exists at its start: the wake-up requests at the start plus those accepted since
      are those still queued plus the sleeps that returned at once; and the activation requests at the start plus those
      accepted since are those still queued. */
  lemma {:induction false} RequestsConserved(ks: seq<KState>, ops: seq<Op>, t: nat, n: nat)
    requires IsRun(ks, ops) && Inv(ks[0]) && IsTask(t) && n <= |ops| && |ks[0].tsk| == SLOTS && ks[0].tsk[t].stat != NON
    ensures Inv(ks[n]) && |ks[n].tsk| == SLOTS && ks[n].tsk[t].stat != NON && ks[n].tsk[t].cpu == ks[0].tsk[t].cpu
    ensures ks[0].tsk[t].wupcnt + Total((k, op) => Requested(k, op, t), ks, ops, n)
         == ks[n].tsk[t].wupcnt + Total((k, op) => Skipped(k, op, t), ks, ops, n)
    ensures ks[0].tsk[t].actcnt + Total((k, op) => Activated(k, op, t), ks, ops, n) == ks[n].tsk[t].actcnt
  {
    hide Inv, Enabled, Apply, Requested, Skipped, Activated;
    if n > 0 {
      RequestsConserved(ks, ops, t, n - 1);
      assert Enabled(ks[n - 1], ops[n - 1]) && ks[n] == Apply(ks[n - 1], ops[n - 1]);
      InvIsShape(ks[n - 1]);
      StepKeepsInv(ks[n - 1], ops[n - 1]);
      CountStep(ks[n - 1], ops[n - 1], t);
    }
  }
}
