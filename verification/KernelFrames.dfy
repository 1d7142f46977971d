/** Who a service call has nothing to do with: their records in the tables stay exactly as they are. */
module KernelFrames {
  import opened Links
  import opened Timeouts
  import opened KernelState
  import opened KernelInvariant
  import opened KernelSteps
  import opened KernelMutex
  import opened KernelRuns
  import opened KernelTheorems
  import opened KernelSemaphores
  import opened KernelTables
  import opened KernelPriorities
  import opened KernelCounts

  /** The call is made by task t, names it, wakes it, or lends it a priority. */
  ghost predicate Concerns(k: KState, c: nat, call: Call, t: nat) {
    && Shape(k) && c < 2
    && (t == k.cur[c] || Wakes(k, c, call, t)
        || match call
           case Cre(u, _) => u == t
           case Act(id) => Target(k, c, id) == t
           case Wup(id) => Target(k, c, id) == t
           case Loc(m, x) => MtxBlocks(k, c, m, x) && k.mtx[m].owner == t
           case _ => false)
  }

  /** The call is about semaphore s. */
  predicate Names(call: Call, s: nat) {
    match call
    case CreS(u, _, _, _) => u == s
    case Sig(u) => u == s
    case Pol(u) => u == s
    case Twai(u, _) => u == s
    case _ => false
  }

  ghost predicate SameTask(k: KState, r: KState, t: nat) {
    t < |k.tsk| == |r.tsk| && r.tsk[t] == k.tsk[t]
  }

  lemma SleepFrame(k: KState, c: nat, call: Call, t: nat)
    requires Shape(k) && WellTyped(c, call) && (call.Slp? || call.Tslp? || call.Dly?) && IsTask(t) && t != k.cur[c]
    ensures SameTask(k, Exec(k, c, call).0, t)
  {
    hide QShape, SlpTsk, TslpTsk, DlyTsk;
    match call
    case Slp => SleepTable(k, c, 0);
    case Tslp(x) => SleepTable(k, c, x);
    case Dly(d) => DelayTable(k, c, d);
  }

  lemma WakeFrame(k: KState, c: nat, id: nat, t: nat)
    requires Shape(k) && c < 2 && id <= SLOTS && IsTask(t) && t != k.cur[c] && t != Target(k, c, id)
    ensures SameTask(k, WupTsk(k, c, id).0, t)
  {
    hide QShape, WupTsk;
    if id < SLOTS { WakeTable(k, c, id); } else { NobodyWoken(k, c); }
  }

  lemma StartFrame(k: KState, c: nat, id: nat, t: nat)
    requires Shape(k) && c < 2 && IsTask(t) && t != Target(k, c, id)
    ensures SameTask(k, ActTsk(k, c, id).0, t)
  {
    hide QShape, ActTsk;
    if id < SLOTS { ActTable(k, c, id); } else { NobodyStarted(k, c, id); }
  }

  lemma SignalFrame(k: KState, c: nat, s: nat, t: nat)
    requires Shape(k) && IsTask(t) && !Wakes(k, c, Sig(s), t)
    ensures SameTask(k, SigSem(k, s).0, t)
  {
    hide AllIds, SigSem;
    SignalTable(k, s);
  }

  lemma TwaiFrame(k: KState, c: nat, s: nat, x: nat, t: nat)
    requires Shape(k) && c < 2 && x < UINT_MOD && IsTask(t) && t != k.cur[c]
    ensures SameTask(k, TwaiSem(k, c, s, x).0, t)
  {
    hide QShape, TwaiSem;
    TwaiTable(k, c, s, x);
  }

  lemma LockFrame(k: KState, c: nat, m: nat, x: nat, t: nat)
    requires Shape(k) && c < 2 && x < UINT_MOD && IsTask(t) && t != k.cur[c]
    requires MtxBlocks(k, c, m, x) ==> k.mtx[m].owner != t
    ensures SameTask(k, TlocMtx(k, c, m, x).0, t)
  {
    hide QShape, TlocMtx, OwnersOk;
    if MtxBlocks(k, c, m, x) {
      MtxBlocksIs(k, c, m, x);
      LockTable(k, c, m, x);
    } else {
      FreeLockTable(k, c, m, x);
    }
  }

  lemma UnlockFrame(k: KState, c: nat, m: nat, t: nat)
    requires Shape(k) && c < 2 && IsTask(t) && t != k.cur[c] && !Wakes(k, c, Unl(m), t)
    ensures SameTask(k, UnlMtx(k, c, m).0, t)
  {
    hide AllIds, PassMtx, Settle;
    if Unlocks(k, c, m) {
      PassTable(k, m);
      SettleTable(PassMtx(k, m), k.cur[c]);
    }
  }

  lemma PlainFrame(k: KState, c: nat, call: Call, t: nat)
    requires Shape(k) && WellTyped(c, call) && IsTask(t) && !(call.Cre? && call.t == t)
    requires call.Cre? || call.CreS? || call.Pol? || call.CreM?
    ensures SameTask(k, Exec(k, c, call).0, t)
  {
    hide QShape;
  }

  /** A task the call does not concern keeps its whole record, whatever state it is in. */
  lemma CallFrame(k: KState, c: nat, call: Call, t: nat)
    requires Shape(k) && WellTyped(c, call) && IsTask(t) && !Concerns(k, c, call, t)
    ensures SameTask(k, Exec(k, c, call).0, t)
  {
    hide QShape, SlpTsk, TslpTsk, DlyTsk, WupTsk, ActTsk, SigSem, TwaiSem, TlocMtx, UnlMtx, SameTask, OwnersOk,
      MtxBlocks, Wakes;
    match call
    case Slp => SleepFrame(k, c, call, t);
    case Tslp(_) => SleepFrame(k, c, call, t);
    case Dly(_) => SleepFrame(k, c, call, t);
    case Wup(id) => WakeFrame(k, c, id, t);
    case Act(id) => StartFrame(k, c, id, t);
    case Sig(s) => SignalFrame(k, c, s, t);
    case Twai(s, x) => TwaiFrame(k, c, s, x, t);
    case Loc(m, x) => LockFrame(k, c, m, x, t);
    case Unl(m) => UnlockFrame(k, c, m, t);
    case _ => PlainFrame(k, c, call, t);
  }

  /** Semaphore s keeps its whole record, whether it exists or not. */
  ghost predicate SameSem(k: KState, r: KState, s: nat) {
    s < |k.sem| == |r.sem| && r.sem[s] == k.sem[s]
  }

  lemma SemCallFrame(k: KState, c: nat, call: Call, s: nat)
    requires Shape(k) && WellTyped(c, call) && s <= MAX_ID && !Names(call, s)
    requires call.CreS? || call.Sig? || call.Pol? || call.Twai?
    ensures SameSem(k, Exec(k, c, call).0, s)
  {
    hide AllIds, InsertAt, Without, Removed, Wait;
    if call.Twai? && SemBlocks(k, call.s, call.tmout) {
      WaitKeepsSem(Enqueue(k, SemQ(call.s), SemPlace(k, c, call.s), k.cur[c]), c, call.tmout);
    }
  }

  /** A call changes no semaphore but the one it names. */
  lemma SemFrame(k: KState, c: nat, call: Call, s: nat)
    requires Shape(k) && MayCall(k, c, call) && s <= MAX_ID && !Names(call, s)
    ensures SameSem(k, Exec(k, c, call).0, s)
  {
    hide QShape, Exec, MayCall, OwnersOk;
    MayCallCaller(k, c, call);
    if call.CreS? || call.Sig? || call.Pol? || call.Twai? {
      SemCallFrame(k, c, call, s);
    } else {
      OthersKeepSem(k, c, call);
    }
  }

  lemma LockKeepsCurrent(k: KState, c: nat, call: Call)
    requires Shape(k) && WellTyped(c, call) && (call.Loc? || call.Unl?)
    ensures Exec(k, c, call).0.cur == k.cur
  {
    hide QShape, InsertAt, Without, Inserted;
  }

  lemma OthersKeepCurrent(k: KState, c: nat, call: Call)
    requires Shape(k) && WellTyped(c, call) && !call.Loc? && !call.Unl?
    ensures Exec(k, c, call).0.cur == k.cur
  {
    hide QShape, InsertAt, Without, Removed, Inserted;
  }

  /** No call changes which task a CPU serves: only a dispatch does. */
  lemma CallKeepsCurrent(k: KState, c: nat, call: Call)
    requires Shape(k) && WellTyped(c, call)
    ensures Exec(k, c, call).0.cur == k.cur
  {
    hide Exec, QShape, OwnersOk;
    if call.Loc? || call.Unl? { LockKeepsCurrent(k, c, call); } else { OthersKeepCurrent(k, c, call); }
  }
}
