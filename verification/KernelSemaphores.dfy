/** Semaphores over whole runs: a timed wait ends in exactly one way, and counts are conserved. */
module KernelSemaphores {
  import opened Links
  import opened Timeouts
  import opened KernelState
  import opened KernelInvariant
  import opened KernelSteps
  import opened KernelMutex
  import opened KernelTick
  import opened KernelRuns
  import opened KernelTheorems

  // ----- A timed semaphore wait ends in exactly one way -----

  ghost predicate SemWait(k: KState, t: nat, s: nat, d: nat) {
    TimedWait(k, t, d) && 1 <= s <= MAX_ID && t in k.q[SemQ(s)]
  }

  lemma HeadsAreMembers(q: Queues)
    ensures forall h :: h in q && q[h] != [] ==> q[h][0] in q[h]
  {}

  /** Only a signal of its own semaphore can wake a task early that waits on semaphore s. */
  lemma OnlySignalWakes(k: KState, op: Op, t: nat, s: nat, d: nat)
    requires SemWait(k, t, s, d) && Enabled(k, op) && WokenBy(k, op, t)
    ensures op.call == Sig(s)
  {
    hide CpuOk, SemOk, MtxOk, OwnOk, IdleOk, ReadyOk, NoDup, AllIds, Remaining, WellFormed;
    TimedWaitWaits(k, t, d);
    HeadsAreMembers(k.q);
  }

  lemma SignalOnWait(k: KState, c: nat, s: nat, t: nat, d: nat)
    requires SemWait(k, t, s, d) && Enabled(k, Syscall(c, Sig(s))) && WokenBy(k, Syscall(c, Sig(s)), t)
    ensures Ended(Apply(k, Syscall(c, Sig(s))), t, E_OK)
  {
    hide CpuOk, SemOk, MtxOk, OwnOk, IdleOk, ReadyOk, LinksOk, WaitOk, AllIds, Remaining, WellFormed,
      KeptBut, TimeoutRemIfExist, InsertAt, Without, Ended, Released;
    TimedWaitWaits(k, t, d);
    SigIsRelease(k, s);
    StepKeepsInv(k, Syscall(c, Sig(s)));
    ReadyIsEnded(Apply(k, Syscall(c, Sig(s))), t);
  }

  /** The wait has been on, without a break, up to state j. */
  ghost predicate WaitsUpTo(ks: seq<KState>, ops: seq<Op>, t: nat, s: nat, d: nat, j: nat)
    requires |ks| == |ops| + 1 && j <= |ops|
  {
    forall i :: 0 <= i <= j ==> Ticks(ops[..i]) < d && SemWait(ks[i], t, s, d - Ticks(ops[..i]))
  }

  /** Step j ends the wait: a signal before the d-th tick, with E_OK, or the d-th tick itself, with E_TMOUT. */
  ghost predicate EndsAt(ks: seq<KState>, ops: seq<Op>, t: nat, s: nat, d: nat, j: nat)
    requires |ks| == |ops| + 1 && j < |ops|
  {
    && WaitsUpTo(ks, ops, t, s, d, j)
    && ((ops[j].TimerTick? && Ticks(ops[..j]) + 1 == d && Ended(ks[j + 1], t, E_TMOUT))
        || (ops[j].Syscall? && ops[j].call == Sig(s) && Ended(ks[j + 1], t, E_OK)))
  }

  lemma WaitStep(k: KState, op: Op, t: nat, s: nat, d: nat)
    requires SemWait(k, t, s, d) && Enabled(k, op)
    ensures var r := Apply(k, op);
            if op.TimerTick? then (if d == 1 then Ended(r, t, E_TMOUT) else d > 1 && SemWait(r, t, s, d - 1))
            else if op.Syscall? && op.call == Sig(s) && Ended(r, t, E_OK) then true
            else SemWait(r, t, s, d)
  {
    hide TimedWait, Apply, Enabled, WokenBy, Ended, Tick;
    TimedWaitWaits(k, t, d);
    if op.TimerTick? {
      TickOnWait(k, t, d);
      ApplyTick(k);
    } else if WokenBy(k, op, t) {
      OnlySignalWakes(k, op, t, s, d);
      WokenIsCall(k, op, t);
      SignalOnWait(k, op.c, s, t, d);
    } else {
      StepOnWait(k, op, t, d);
      TimedWaitWaits(Apply(k, op), t, d);
    }
  }

  lemma WokenIsCall(k: KState, op: Op, t: nat)
    requires Shape(k) && WokenBy(k, op, t)
    ensures op.Syscall?
  {}

  /** Over any run, a task waiting on a semaphore with d ticks left either has waited all the time, or some earlier step
      ended its unbroken wait: a signal (E_OK) or the d-th tick (E_TMOUT). */
  lemma {:induction false} TimedWaitEnds(ks: seq<KState>, ops: seq<Op>, t: nat, s: nat, d: nat, n: nat)
    requires IsRun(ks, ops) && SemWait(ks[0], t, s, d) && n <= |ops|
    ensures WaitsUpTo(ks, ops, t, s, d, n) || exists j: nat :: j < n && EndsAt(ks, ops, t, s, d, j)
  {
    hide SemWait, Apply, Enabled, Ended, EndsAt, WaitsUpTo;
    if n == 0 {
      WaitBegins(ks, ops, t, s, d);
    } else {
      TimedWaitEnds(ks, ops, t, s, d, n - 1);
      if WaitsUpTo(ks, ops, t, s, d, n - 1) {
        RunStep(ks, ops, n - 1);
        WaitGoesOn(ks, ops, t, s, d, n - 1);
      }
    }
  }

  lemma WaitBegins(ks: seq<KState>, ops: seq<Op>, t: nat, s: nat, d: nat)
    requires |ks| == |ops| + 1 && SemWait(ks[0], t, s, d)
    ensures WaitsUpTo(ks, ops, t, s, d, 0)
  {
    hide SemWait;
    SemWaitPositive(ks[0], t, s, d);
  }

  lemma WaitGoesOn(ks: seq<KState>, ops: seq<Op>, t: nat, s: nat, d: nat, j: nat)
    requires |ks| == |ops| + 1 && j < |ops| && Enabled(ks[j], ops[j]) && ks[j + 1] == Apply(ks[j], ops[j])
    requires WaitsUpTo(ks, ops, t, s, d, j)
    ensures WaitsUpTo(ks, ops, t, s, d, j + 1) || EndsAt(ks, ops, t, s, d, j)
  {
    hide SemWait, Apply, Enabled, Ended;
    WaitStep(ks[j], ops[j], t, s, d - Ticks(ops[..j]));
    TicksNext(ops, j);
  }

  /** There is only one such step. */
  lemma EndsOnce(ks: seq<KState>, ops: seq<Op>, t: nat, s: nat, d: nat, i: nat, j: nat)
    requires |ks| == |ops| + 1 && i < j < |ops| && EndsAt(ks, ops, t, s, d, i)
    ensures !EndsAt(ks, ops, t, s, d, j) && !WaitsUpTo(ks, ops, t, s, d, j)
  {
    hide Ticks;
    NotBoth(ks[i + 1], t, s, d - Ticks(ops[..i + 1]));
  }

  lemma NotBoth(k: KState, t: nat, s: nat, d: int)
    ensures Ended(k, t, E_OK) || Ended(k, t, E_TMOUT) ==> d < 0 || !SemWait(k, t, s, d)
  {
    hide ReadyOk, LinksOk, CpuOk, SemOk, MtxOk, OwnOk, IdleOk, WellFormed, Remaining, NoDup;
    if d >= 0 && SemWait(k, t, s, d) { TimedWaitWaits(k, t, d); }
  }

  lemma SemWaitPositive(k: KState, t: nat, s: nat, d: nat)
    requires SemWait(k, t, s, d)
    ensures d >= 1
  {
    TimedWaitWaits(k, t, d);
  }

  /** Step i is a service call made by task t. */
  ghost predicate CallsItself(k: KState, op: Op, t: nat)
    requires Shape(k)
  {
    op.Syscall? && op.c < 2 && k.cur[op.c] == t
  }

  lemma ReadyStaysReady(k: KState, op: Op, t: nat)
    requires Inv(k) && Enabled(k, op) && IsTask(t) && Active(k.tsk[t]) && !CallsItself(k, op, t)
    ensures var r := Apply(k, op); Inv(r) && Active(r.tsk[t]) && r.tsk[t].eax == k.tsk[t].eax
  {
    hide LinksOk, CpuOk, SemOk, MtxOk, OwnOk, IdleOk, ReadyOk, NoDup, AllIds, Exec, MayCall, Remaining,
      WellFormed, DoNext, SetEax, Wakes, Tick;
    match op
    case Syscall(c, call) =>
      MayCallCaller(k, c, call);
      ApplyKeeps(k, c, call, t);
    case Resume(c) => DispatchKeeps(k, c, t);
    case TimerTick =>
      ActiveIsUnlinked(k, t);
      TickEffect(k);
  }

  /** Once the wait has ended, nothing but the task's own calls can block it again or change its return value: the
      other event has lost its chance. */
  lemma {:induction false} EndedStays(ks: seq<KState>, ops: seq<Op>, t: nat, e: int, i: nat, n: nat)
    requires IsRun(ks, ops) && i <= n <= |ops| && Ended(ks[i], t, e)
    requires forall j :: i <= j < n ==> Shape(ks[j]) && !CallsItself(ks[j], ops[j], t)
    ensures Inv(ks[n]) && Active(ks[n].tsk[t]) && ks[n].tsk[t].eax == e
    ensures !Queued(ks[n].q, W, t) && !Queued(ks[n].q, T, t)
    decreases n
  {
    hide Apply, Enabled, LinksOk, CpuOk, SemOk, MtxOk, OwnOk, IdleOk, ReadyOk, NoDup, AllIds, WellFormed,
      Queued, CallsItself;
    if i < n {
      EndedStays(ks, ops, t, e, i, n - 1);
      assert Enabled(ks[n - 1], ops[n - 1]) && ks[n] == Apply(ks[n - 1], ops[n - 1]);
      ReadyStaysReady(ks[n - 1], ops[n - 1], t);
      ActiveIsUnlinked(ks[n], t);
    }
  }

  // ----- Conservation -----

  /** A successful signal. */
  ghost function Gained(k: KState, op: Op, s: nat): nat
    requires Enabled(k, op)
  {
    if op.Syscall? && op.call == Sig(s) && Exec(k, op.c, op.call).1 == E_OK then 1 else 0
  }

  /** A successful acquisition: a poll, a wait that did not block, or a signal handed straight to a waiter. */
  ghost function Taken(k: KState, op: Op, s: nat): nat
    requires Enabled(k, op)
  {
    if !op.Syscall? || Exec(k, op.c, op.call).1 != E_OK then 0
    else match op.call
      case Pol(u) => if u == s then 1 else 0
      case Twai(u, _) => if u == s then 1 else 0
      case Sig(u) => if u == s && 1 <= s <= MAX_ID && k.q[SemQ(s)] != [] then 1 else 0
      case _ => 0
  }

  lemma SleepKeepsSem(k: KState, c: nat, x: nat)
    requires Shape(k) && c < 2 && x < UINT_MOD
    ensures SlpTsk(k, c).0.sem == k.sem && TslpTsk(k, c, x).0.sem == k.sem && DlyTsk(k, c, x).0.sem == k.sem
  {
    hide AllIds, InsertAt, Without, Inserted;
  }

  lemma WaitKeepsSem(k: KState, c: nat, x: nat)
    requires Shape(k) && c < 2 && x < UINT_MOD
    ensures Wait(k, c, x).sem == k.sem
  {
    hide SlpTsk, TslpTsk, AllIds;
    SleepKeepsSem(k, c, x);
  }

  lemma WakeKeepsSem(k: KState, c: nat, t: nat)
    requires Shape(k) && c < 2
    ensures (t <= SLOTS ==> WupTsk(k, c, t).0.sem == k.sem) && ActTsk(k, c, t).0.sem == k.sem
  {
    hide AllIds, InsertAt, Without, Removed;
  }

  lemma LockKeepsSem(k: KState, c: nat, m: nat, x: nat)
    requires Shape(k) && c < 2 && x < UINT_MOD
    ensures TlocMtx(k, c, m, x).0.sem == k.sem
  {
    hide InsertAt, Without, Wait;
    if 1 <= m < SLOTS && k.mtx[m].lock {
      var t := k.cur[c];
      WaitKeepsSem(Boost(Enqueue(k, MtxQ(m), MtxPlace(k, m, t), t), m, t), c, x);
    }
  }

  lemma UnlockKeepsSem(k: KState, c: nat, m: nat)
    requires Shape(k) && c < 2
    ensures UnlMtx(k, c, m).0.sem == k.sem
  {
    hide AllIds, InsertAt, Without;
  }

  lemma OthersKeepSem(k: KState, c: nat, call: Call)
    requires Shape(k) && MayCall(k, c, call)
    ensures !call.CreS? && !call.Sig? && !call.Pol? && !call.Twai? ==> Exec(k, c, call).0.sem == k.sem
  {
    hide QShape, SlpTsk, TslpTsk, DlyTsk, WupTsk, ActTsk, TlocMtx, UnlMtx, Queued, SigSem, TwaiSem;
    match call
    case Loc(m, x) => LockKeepsSem(k, c, m, x);
    case Unl(m) => UnlockKeepsSem(k, c, m);
    case Wup(t) => WakeKeepsSem(k, c, t);
    case Act(t) => WakeKeepsSem(k, c, t);
    case Slp => SleepKeepsSem(k, c, 0);
    case Tslp(x) => SleepKeepsSem(k, c, x);
    case Dly(x) => SleepKeepsSem(k, c, x);
    case _ =>
  }

  lemma TwaiSemCount(k: KState, c: nat, u: nat, x: nat, s: nat)
    requires Shape(k) && c < 2 && x < UINT_MOD && 1 <= s <= MAX_ID && k.sem[s].act
    ensures var (r, ret) := TwaiSem(k, c, u, x);
            && |r.sem| == |k.sem|
            && r.sem[s] == k.sem[s].(cnt := r.sem[s].cnt)
            && r.sem[s].cnt + (if u == s && ret == E_OK then 1 else 0) == k.sem[s].cnt
  {
    hide InsertAt, Without, Wait;
    if SemBlocks(k, u, x) {
      WaitKeepsSem(Enqueue(k, SemQ(u), SemPlace(k, c, u), k.cur[c]), c, x);
    }
  }

  lemma SigSemCount(k: KState, u: nat, s: nat)
    requires Inv(k) && 1 <= s <= MAX_ID && k.sem[s].act
    ensures var (r, ret) := SigSem(k, u);
            && |r.sem| == |k.sem|
            && r.sem[s] == k.sem[s].(cnt := r.sem[s].cnt)
            && r.sem[s].cnt == k.sem[s].cnt + (if u == s && ret == E_OK && k.q[SemQ(s)] == [] then 1 else 0)
            && (u == s && k.q[SemQ(s)] != [] ==> ret == E_OK)
  {
    hide ReadyOk, LinksOk, WaitOk, CpuOk, MtxOk, OwnOk, IdleOk, WellFormed, NoDup, InsertAt, Without,
      Removed, Sorted;
    assert SemAt(k.tsk, k.q[SemQ(s)], k.sem[s]);
  }

  /** One step changes the count by what it gave minus what it took. */
  lemma StepConserves(k: KState, op: Op, s: nat)
    requires Inv(k) && Enabled(k, op) && 1 <= s <= MAX_ID && k.sem[s].act
    ensures var r := Apply(k, op);
            && Inv(r) && r.sem[s] == k.sem[s].(cnt := r.sem[s].cnt)
            && r.sem[s].cnt + Taken(k, op, s) == k.sem[s].cnt + Gained(k, op, s)
  {
    hide ReadyOk, LinksOk, WaitOk, CpuOk, SemOk, MtxOk, OwnOk, IdleOk, WellFormed, AllIds, SlpTsk, TslpTsk,
      DlyTsk, WupTsk, ActTsk, TlocMtx, UnlMtx, SigSem, TwaiSem, Tick, DoNext, MayCall;
    StepKeepsInv(k, op);
    match op
    case Syscall(c, call) =>
      MayCallCaller(k, c, call);
      ExecKeepsInv(k, c, call);
      OthersKeepSem(k, c, call);
      match call {
        case Sig(u) => SigSemCount(k, u, s);
        case Twai(u, x) => TwaiSemCount(k, c, u, x, s);
        case _ =>
      }
    case Resume(c) => DispatchOptimal(k, c);
    case TimerTick => TickEffect(k);
  }

  ghost function TotalGained(ks: seq<KState>, ops: seq<Op>, s: nat, n: nat): nat
    requires IsRun(ks, ops) && n <= |ops|
  {
    if n == 0 then 0 else
    assert Enabled(ks[n - 1], ops[n - 1]);
    TotalGained(ks, ops, s, n - 1) + Gained(ks[n - 1], ops[n - 1], s)
  }

  ghost function TotalTaken(ks: seq<KState>, ops: seq<Op>, s: nat, n: nat): nat
    requires IsRun(ks, ops) && n <= |ops|
  {
    if n == 0 then 0 else
    assert Enabled(ks[n - 1], ops[n - 1]);
    TotalTaken(ks, ops, s, n - 1) + Taken(ks[n - 1], ops[n - 1], s)
  }

  /** Over every run, initial count plus successful signals equals current count plus successful acquisitions; tasks
      wait only while the count is 0, and the count never exceeds its maximum. */
  lemma {:induction false} SemaphoreConservation(ks: seq<KState>, ops: seq<Op>, s: nat, n: nat)
    requires IsRun(ks, ops) && n <= |ops|
    requires Shape(ks[0]) && 1 <= s <= MAX_ID && ks[0].sem[s].act && Inv(ks[0])
    ensures Shape(ks[n]) && ks[n].sem[s].act && ks[n].sem[s].max == ks[0].sem[s].max
    ensures ks[0].sem[s].cnt + TotalGained(ks, ops, s, n) == ks[n].sem[s].cnt + TotalTaken(ks, ops, s, n)
    ensures ks[n].q[SemQ(s)] != [] ==> ks[n].sem[s].cnt == 0
    ensures ks[n].sem[s].cnt <= ks[n].sem[s].max && Inv(ks[n])
  {
    hide ReadyOk, LinksOk, WaitOk, CpuOk, MtxOk, OwnOk, IdleOk, WellFormed, Apply, Enabled, Gained, Taken,
      Sorted;
    if n > 0 {
      SemaphoreConservation(ks, ops, s, n - 1);
      assert Enabled(ks[n - 1], ops[n - 1]) && ks[n] == Apply(ks[n - 1], ops[n - 1]);
      StepConserves(ks[n - 1], ops[n - 1], s);
    }
    assert SemAt(ks[n].tsk, ks[n].q[SemQ(s)], ks[n].sem[s]);
  }
}
