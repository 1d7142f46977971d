/** Who owns which mutex, and what creation leaves in the tables. */
module KernelOwners {
  import opened Links
  import opened Timeouts
  import opened KernelState
  import opened KernelInvariant
  import opened KernelSteps
  import opened KernelMutex
  import opened KernelTick
  import opened KernelRuns
  import opened KernelTheorems
  import opened KernelTables
  import opened KernelPriorities
  import opened KernelCodes

  /** Mutex m is owned by o, or free if o is None. */
  predicate OwnedBy(k: KState, m: nat, o: Option<nat>) {
    m < |k.mtx| && if o.Some? then k.mtx[m].lock && k.mtx[m].owner == o.value else !k.mtx[m].lock
  }

  /** The call takes mutex m, which is free. */
  ghost predicate Takes(k: KState, c: nat, call: Call, m: nat) {
    Shape(k) && c < 2 && call.Loc? && call.m == m && HasMtx(k, m) && !k.mtx[m].lock
  }

  /** The call is an unlock of m by its owner. */
  ghost predicate GivesUp(k: KState, c: nat, call: Call, m: nat) {
    Shape(k) && c < 2 && call.Unl? && call.m == m && Unlocks(k, c, m)
  }

  /** Whom the first waiter makes the next owner: nobody if there is none. */
  ghost function First(k: KState, m: nat): Option<nat> {
    if MtxQ(m) in k.q && k.q[MtxQ(m)] != [] then Some(k.q[MtxQ(m)][0]) else None
  }

  /** A free mutex goes to the task that locks it, one that its owner unlocks to its first waiter; no other call changes
      the owner of a mutex, and none but its creation its attribute and ceiling. */
  ghost predicate OwnerMoves(k: KState, r: KState, c: nat, call: Call, m: nat) {
    && m < |k.mtx| == |r.mtx| && c < |k.cur|
    && (Takes(k, c, call, m) ==> OwnedBy(r, m, Some(k.cur[c])))
    && (GivesUp(k, c, call, m) ==> OwnedBy(r, m, First(k, m)))
    && (!Takes(k, c, call, m) && !GivesUp(k, c, call, m) ==>
          r.mtx[m].lock == k.mtx[m].lock && (k.mtx[m].lock ==> r.mtx[m].owner == k.mtx[m].owner))
    && (if call.CreM? && call.m == m && !k.mtx[m].act
        then r.mtx[m].act && r.mtx[m].atr == call.atr && r.mtx[m].ceil == call.ceil
        else r.mtx[m].act == k.mtx[m].act && r.mtx[m].atr == k.mtx[m].atr && r.mtx[m].ceil == k.mtx[m].ceil)
  }

  lemma LockOwner(k: KState, c: nat, n: nat, x: nat, m: nat)
    requires Shape(k) && c < 2 && x < UINT_MOD && 1 <= m < SLOTS
    ensures OwnerMoves(k, TlocMtx(k, c, n, x).0, c, Loc(n, x), m)
  {
    hide QShape, TlocMtx;
    if MtxBlocks(k, c, n, x) { LockTable(k, c, n, x); } else { FreeLockTable(k, c, n, x); }
  }

  lemma UnlockOwner(k: KState, c: nat, n: nat, m: nat)
    requires Shape(k) && c < 2 && 1 <= m < SLOTS
    ensures OwnerMoves(k, UnlMtx(k, c, n).0, c, Unl(n), m)
  {
    hide AllIds, PassMtx, Settle;
    if Unlocks(k, c, n) {
      PassTable(k, n);
      SettleTable(PassMtx(k, n), k.cur[c]);
    }
  }

  lemma CreatedMutex(k: KState, c: nat, call: Call, m: nat)
    requires Shape(k) && WellTyped(c, call) && (call.Cre? || call.CreS? || call.Pol? || call.CreM?) && 1 <= m < SLOTS
    ensures OwnerMoves(k, Exec(k, c, call).0, c, call, m)
  {
    hide QShape;
  }

  lemma SameMutexes(k: KState, c: nat, call: Call)
    requires Shape(k) && WellTyped(c, call)
    requires call.Slp? || call.Tslp? || call.Dly? || call.Wup? || call.Act? || call.Sig? || call.Twai?
    ensures Exec(k, c, call).0.mtx == k.mtx
  {
    hide QShape, SlpTsk, TslpTsk, DlyTsk, WupTsk, ActTsk, SigSem, TwaiSem;
    match call
    case Slp => SleepTable(k, c, 0);
    case Tslp(x) => SleepTable(k, c, x);
    case Dly(d) => DelayTable(k, c, d);
    case Wup(id) => if id < SLOTS { WakeTable(k, c, id); } else { NobodyWoken(k, c); }
    case Act(id) => if id < SLOTS { ActTable(k, c, id); } else { NobodyStarted(k, c, id); }
    case Sig(s) => SignalTable(k, s);
    case Twai(s, x) => TwaiTable(k, c, s, x);
  }

  lemma OwnerStays(k: KState, r: KState, c: nat, call: Call, m: nat)
    requires Shape(k) && c < 2 && 1 <= m < SLOTS && r.mtx == k.mtx && !call.Loc? && !call.Unl? && !call.CreM?
    ensures OwnerMoves(k, r, c, call, m)
  {
    hide QShape;
  }

  /** Every call. */
  lemma CallOwner(k: KState, c: nat, call: Call, m: nat)
    requires Shape(k) && WellTyped(c, call) && 1 <= m < SLOTS
    ensures OwnerMoves(k, Exec(k, c, call).0, c, call, m)
  {
    hide QShape, SlpTsk, TslpTsk, DlyTsk, WupTsk, ActTsk, SigSem, TwaiSem, TlocMtx, UnlMtx, CreTsk, CreSem, CreMtx,
      PolSem, OwnerMoves, OwnersOk;
    match call
    case Loc(n, x) => LockOwner(k, c, n, x, m);
    case Unl(n) => UnlockOwner(k, c, n, m);
    case Cre(_, _) => CreatedMutex(k, c, call, m);
    case CreS(_, _, _, _) => CreatedMutex(k, c, call, m);
    case Pol(_) => CreatedMutex(k, c, call, m);
    case CreM(_, _, _) => CreatedMutex(k, c, call, m);
    case _ =>
      SameMutexes(k, c, call);
      OwnerStays(k, Exec(k, c, call).0, c, call, m);
  }

  /** One step takes mutex m from its owner t only if it is t's own unlock. */
  lemma OwnerStep(k: KState, op: Op, m: nat, t: nat)
    requires Inv(k) && Enabled(k, op) && 1 <= m < SLOTS && OwnedBy(k, m, Some(t))
    requires !(op.Syscall? && GivesUp(k, op.c, op.call, m))
    ensures OwnedBy(Apply(k, op), m, Some(t))
  {
    hide Inv, Exec, MayCall, Tick, Dispatch, QShape, OwnersOk, GivesUp, Takes;
    match op
    case Syscall(c, call) =>
      MayCallCaller(k, c, call);
      CallOwner(k, c, call, m);
      CallTable(k, c, call);
      NotTaken(k, c, call, m);
    case TimerTick => TickEffect(k);
    case Resume(c) => DispatchTable(k, c);
  }

  lemma NotTaken(k: KState, c: nat, call: Call, m: nat)
    requires m < |k.mtx| && k.mtx[m].lock
    ensures !Takes(k, c, call, m)
  {}

  /** Over every run, a mutex stays with its owner until that task itself unlocks it. */
  lemma {:induction false} OnlyOwnerReleases(ks: seq<KState>, ops: seq<Op>, m: nat, t: nat, i: nat, n: nat)
    requires IsRun(ks, ops) && i <= n <= |ops| && Inv(ks[i]) && 1 <= m < SLOTS && OwnedBy(ks[i], m, Some(t))
    requires forall j :: i <= j < n ==> !(ops[j].Syscall? && GivesUp(ks[j], ops[j].c, ops[j].call, m))
    ensures Inv(ks[n]) && OwnedBy(ks[n], m, Some(t))
    decreases n
  {
    hide Inv, Enabled, Apply, GivesUp;
    if i < n {
      OnlyOwnerReleases(ks, ops, m, t, i, n - 1);
      RunStep(ks, ops, n - 1);
      StepKeepsInv(ks[n - 1], ops[n - 1]);
      OwnerStep(ks[n - 1], ops[n - 1], m, t);
    }
  }

  /** A mutex that does not exist is locked by nobody. */
  ghost predicate LockedExists(k: KState, m: nat) {
    m < |k.mtx| && (k.mtx[m].lock ==> k.mtx[m].act)
  }

  lemma LockedExistsStep(k: KState, op: Op, m: nat)
    requires Inv(k) && Enabled(k, op) && 1 <= m < SLOTS && LockedExists(k, m)
    ensures LockedExists(Apply(k, op), m)
  {
    hide Inv, Exec, MayCall, Tick, Dispatch, QShape, OwnersOk;
    match op
    case Syscall(c, call) =>
      MayCallCaller(k, c, call);
      CallOwner(k, c, call, m);
      CallTable(k, c, call);
    case TimerTick => TickEffect(k);
    case Resume(c) => DispatchTable(k, c);
  }

  /** In every run from the start-up state a mutex is free when it is created. */
  lemma {:induction false} NewMutexIsFree(ks: seq<KState>, ops: seq<Op>, m: nat, n: nat)
    requires IsRun(ks, ops) && ks[0] == Boot() && 1 <= m < SLOTS && n <= |ops|
    ensures Inv(ks[n]) && LockedExists(ks[n], m)
  {
    hide Inv, Enabled, Apply, Boot;
    if n == 0 {
      BootInv();
      BootTables();
    } else {
      NewMutexIsFree(ks, ops, m, n - 1);
      RunStep(ks, ops, n - 1);
      StepKeepsInv(ks[n - 1], ops[n - 1]);
      LockedExistsStep(ks[n - 1], ops[n - 1], m);
    }
  }

  // ----- Creation -----

  /** The new task is dormant, without requests or mutexes, at its base priority, and belongs to the CPU that created
      it; the new semaphore has the attribute, count and maximum of the call; the new mutex its attribute and ceiling.
      Nothing else changes. */
  ghost predicate Created(k: KState, r: KState, c: nat, call: Call) {
    && Shape(k) && Shape(r) && c < 2
    && r.q == k.q && r.delta == k.delta && r.cur == k.cur && r.flag == k.flag
    && match call
       case Cre(t, p) =>
         && IsTask(t) && r.sem == k.sem && r.mtx == k.mtx
         && r.tsk[t].stat == DMT && r.tsk[t].pri == p && r.tsk[t].bpri == p && r.tsk[t].cpu == c
         && r.tsk[t].actcnt == 0 && r.tsk[t].wupcnt == 0 && r.tsk[t].mtxcnt == 0
         && (forall u: nat :: IsTask(u) && u != t ==> r.tsk[u] == k.tsk[u])
       case CreS(s, atr, cnt, max) =>
         && 1 <= s <= MAX_ID && r.tsk == k.tsk && r.mtx == k.mtx
         && HasSem(r, s) && r.sem[s].atr == atr && r.sem[s].cnt == cnt && r.sem[s].max == max && r.q[SemQ(s)] == []
         && (forall u: nat :: u <= MAX_ID && u != s ==> r.sem[u] == k.sem[u])
       case CreM(m, atr, ceil) =>
         && 1 <= m < SLOTS && r.tsk == k.tsk && r.sem == k.sem
         && HasMtx(r, m) && r.mtx[m].lock == k.mtx[m].lock && r.mtx[m].atr == atr && r.mtx[m].ceil == ceil
         && (forall u: nat :: u < SLOTS && u != m ==> r.mtx[u] == k.mtx[u])
       case _ => true
  }

  /** What a successful creation leaves. */
  lemma CallCreates(k: KState, c: nat, call: Call)
    requires Inv(k) && WellTyped(c, call) && Shape(k) && Creates(call) && Exec(k, c, call).1 == E_OK
    ensures Created(k, Exec(k, c, call).0, c, call)
  {
    hide LinksOk, CpuOk, MtxOk, OwnOk, IdleOk, ReadyOk, WaitOk, WellFormed;
    if call.CreS? { assert SemAt(k.tsk, k.q[SemQ(call.s)], k.sem[call.s]); }
  }
}
