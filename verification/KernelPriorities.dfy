/** Priority inheritance: which priority a task has, and from whom. */
module KernelPriorities {
  import opened Links
  import opened Timeouts
  import opened KernelState
  import opened KernelInvariant
  import opened KernelSteps
  import opened KernelMutex
  import opened KernelTick
  import opened KernelRuns
  import opened KernelTables

  function Min(a: nat, b: nat): nat { if a < b then a else b }

  /** The priority of the owner of m becomes the smaller of its own and that of CPU c's task; nobody else's changes, and
      no base priority does. */
  ghost predicate Inherits(k: KState, r: KState, c: nat, m: nat) {
    && Shape(k) && Shape(r) && c < 2 && 1 <= m < SLOTS && k.mtx[m].lock
    && var o := k.mtx[m].owner;
       && r.tsk[o].pri == Min(k.tsk[o].pri, k.tsk[k.cur[c]].pri)
       && (forall u: nat :: IsTask(u) && u != o ==> r.tsk[u].pri == k.tsk[u].pri)
       && (forall u: nat :: IsTask(u) ==> r.tsk[u].bpri == k.tsk[u].bpri)
  }

  /** The priorities of task t are the same. */
  predicate SamePriorities(k: KState, r: KState, t: nat) {
    && t < |k.tsk| == |r.tsk|
    && r.tsk[t].pri == k.tsk[t].pri && r.tsk[t].bpri == k.tsk[t].bpri
  }

  /** When waiting for a mutex blocks, its owner's priority becomes the smaller of its own and the caller's; every other
      task keeps its priority. */
  lemma LockInherits(k: KState, c: nat, m: nat, tmout: nat)
    requires Shape(k) && WellTyped(c, Loc(m, tmout)) && MtxBlocks(k, c, m, tmout)
    ensures Inherits(k, Exec(k, c, Loc(m, tmout)).0, c, m)
  {
    hide Exec, TlocMtx, MtxBlocks, OwnersOk, QShape, Inherits;
    MtxBlocksIs(k, c, m, tmout);
    ExecLoc(k, c, m, tmout);
    LockPriorities(k, c, m, tmout);
  }

  lemma ExecLoc(k: KState, c: nat, m: nat, x: nat)
    requires Shape(k) && WellTyped(c, Loc(m, x))
    ensures Exec(k, c, Loc(m, x)) == TlocMtx(k, c, m, x)
  {
    hide QShape, TlocMtx;
  }

  lemma LockPriorities(k: KState, c: nat, m: nat, x: nat)
    requires Shape(k) && c < 2 && x < UINT_MOD && MtxBlocks(k, c, m, x)
    ensures TlocMtx(k, c, m, x).0.mtx == k.mtx
    ensures Inherits(k, TlocMtx(k, c, m, x).0, c, m)
  {
    hide QShape, TlocMtx, MtxBlocks, OwnersOk;
    MtxBlocksIs(k, c, m, x);
    LockTable(k, c, m, x);
  }

  lemma MtxBlocksIs(k: KState, c: nat, m: nat, tmout: nat)
    requires Shape(k) && c < 2 && MtxBlocks(k, c, m, tmout)
    ensures 1 <= m < SLOTS && k.mtx[m].lock && IsTask(k.mtx[m].owner) && k.mtx[m].owner != k.cur[c] && IsTask(k.cur[c])
  {
    hide QShape;
  }

  /** Task t owns a mutex. */
  ghost predicate Owner(k: KState, t: nat) {
    |k.mtx| == SLOTS && !OwnsNone(k.mtx, t)
  }

  /** When the owner of a mutex unlocks it, it is back at its base priority if it owns no other one, and keeps its
      priority otherwise; every other task keeps its priority. */
  lemma UnlockRestores(k: KState, c: nat, m: nat)
    requires Inv(k) && MayCall(k, c, Unl(m)) && Unlocks(k, c, m)
    ensures var r, t := Exec(k, c, Unl(m)).0, k.cur[c];
            && Shape(r)
            && r.tsk[t].pri == (if Owner(r, t) then k.tsk[t].pri else k.tsk[t].bpri)
            && forall u: nat :: IsTask(u) && u != t ==> r.tsk[u].pri == k.tsk[u].pri
  {
    hide Inv, MayCall, Exec, Unlocks, QShape, OwnsNone;
    InvIsShape(k);
    MayCallCaller(k, c, Unl(m));
    ExecKeepsInv(k, c, Unl(m));
    UnlockPriorities(k, c, m);
    OwnerIff(k, k.cur[c]);
    OwnerIff(Exec(k, c, Unl(m)).0, k.cur[c]);
  }

  lemma OwnerIff(k: KState, t: nat)
    requires Inv(k) && IsTask(t)
    ensures Shape(k) && (Owner(k, t) <==> k.tsk[t].mtxcnt > 0)
    ensures !Owner(k, t) ==> k.tsk[t].pri == k.tsk[t].bpri
    ensures !Started(k.tsk[t]) ==> !Owner(k, t)
  {
    hide LinksOk, MtxOk, SemOk, CpuOk, ReadyOk, WaitOk, WellFormed, IdleOk, Owned, QShape;
    assert OwnAt(k.tsk[t], Owned(k.mtx, t, SLOTS - 1));
    if k.tsk[t].mtxcnt == 0 {
      OwnedNone(k.mtx, t);
    } else {
      OwnsSome(k.mtx, t, SLOTS - 1);
    }
  }

  lemma {:induction false} OwnsSome(mtx: seq<Mtx>, t: nat, n: nat)
    requires n < |mtx| && Owned(mtx, t, n) > 0
    ensures !OwnsNone(mtx, t)
  {
    if !(mtx[n].lock && mtx[n].owner == t) { OwnsSome(mtx, t, n - 1); }
  }

  lemma UnlockPriorities(k: KState, c: nat, m: nat)
    requires Shape(k) && WellTyped(c, Unl(m)) && Unlocks(k, c, m)
    ensures var r, t := Exec(k, c, Unl(m)).0, k.cur[c];
            && |r.tsk| == SLOTS
            && r.tsk[t].pri == (if r.tsk[t].mtxcnt == 0 then k.tsk[t].bpri else k.tsk[t].pri)
            && (forall u: nat :: IsTask(u) ==> r.tsk[u].bpri == k.tsk[u].bpri)
            && forall u: nat :: IsTask(u) && u != t ==> r.tsk[u].pri == k.tsk[u].pri
  {
    hide QShape, PassMtx, Settle;
    PassTable(k, m);
    SettleTable(PassMtx(k, m), k.cur[c]);
  }

  // ----- Over runs -----

  /** The step makes a task of priority p wait for a mutex that t owns. */
  ghost predicate Lends(k: KState, op: Op, t: nat, p: nat) {
    && Shape(k) && op.Syscall? && op.c < 2 && op.call.Loc? && MtxBlocks(k, op.c, op.call.m, op.call.tmout)
    && k.mtx[op.call.m].owner == t && k.tsk[k.cur[op.c]].pri == p
  }

  /** Step j lent t the priority p, and t has owned some mutex ever since. */
  ghost predicate LentSince(ks: seq<KState>, ops: seq<Op>, t: nat, p: nat, j: nat, n: nat) {
    && j < n <= |ops| && |ks| == |ops| + 1 && Lends(ks[j], ops[j], t, p)
    && forall i :: j < i <= n ==> Owner(ks[i], t)
  }

  /** No call but a blocking lock, an unlock by the task itself, and its creation changes a task's priority. */
  lemma PriorityKept(k: KState, c: nat, call: Call, t: nat)
    requires Shape(k) && MayCall(k, c, call) && IsTask(t)
    requires call.Loc? && MtxBlocks(k, c, call.m, call.tmout) ==> k.mtx[call.m].owner != t
    requires !(call.Unl? && t == k.cur[c]) && !(call.Cre? && t == call.t)
    ensures SamePriorities(k, Exec(k, c, call).0, t)
  {
    hide QShape, MayCall, SlpTsk, TslpTsk, DlyTsk, WupTsk, ActTsk, SigSem, TwaiSem, TlocMtx, UnlMtx, MtxBlocks,
      SamePriorities, OwnersOk;
    MayCallCaller(k, c, call);
    match call
    case Slp => SleepPriorities(k, c, 0, t);
    case Tslp(x) => SleepPriorities(k, c, x, t);
    case Dly(d) => SleepPriorities(k, c, d, t);
    case Wup(id) => WakePriorities(k, c, id, t);
    case Act(id) => StartPriorities(k, c, id, t);
    case Sig(s) => SignalPriorities(k, s, t);
    case Twai(s, x) => TwaiPriorities(k, c, s, x, t);
    case Loc(m, x) => LockKeepsOthers(k, c, m, x, t);
    case Unl(m) => UnlockKeepsOthers(k, c, m, t);
    case _ => PlainPriorities(k, c, call, t);
  }

  lemma SleepPriorities(k: KState, c: nat, x: nat, t: nat)
    requires Shape(k) && c < 2 && x < UINT_MOD && IsTask(t)
    ensures SamePriorities(k, SlpTsk(k, c).0, t) && SamePriorities(k, TslpTsk(k, c, x).0, t)
    ensures SamePriorities(k, DlyTsk(k, c, x).0, t)
  {
    hide QShape, SlpTsk, TslpTsk, DlyTsk;
    SleepTable(k, c, x);
    DelayTable(k, c, x);
  }

  lemma WakePriorities(k: KState, c: nat, id: nat, t: nat)
    requires Shape(k) && c < 2 && id <= SLOTS && IsTask(t)
    ensures SamePriorities(k, WupTsk(k, c, id).0, t)
  {
    hide QShape, WupTsk;
    if id < SLOTS { WakeTable(k, c, id); } else { NobodyWoken(k, c); }
  }

  lemma StartPriorities(k: KState, c: nat, id: nat, t: nat)
    requires Shape(k) && c < 2 && IsTask(t)
    ensures SamePriorities(k, ActTsk(k, c, id).0, t)
  {
    hide QShape, ActTsk;
    if id < SLOTS { ActTable(k, c, id); } else { NobodyStarted(k, c, id); }
  }

  lemma SignalPriorities(k: KState, s: nat, t: nat)
    requires Shape(k) && IsTask(t)
    ensures SamePriorities(k, SigSem(k, s).0, t)
  {
    hide AllIds, SigSem;
    SignalTable(k, s);
  }

  lemma TwaiPriorities(k: KState, c: nat, s: nat, x: nat, t: nat)
    requires Shape(k) && c < 2 && x < UINT_MOD && IsTask(t)
    ensures SamePriorities(k, TwaiSem(k, c, s, x).0, t)
  {
    hide QShape, TwaiSem;
    TwaiTable(k, c, s, x);
  }

  lemma LockKeepsOthers(k: KState, c: nat, m: nat, x: nat, t: nat)
    requires Shape(k) && c < 2 && x < UINT_MOD && IsTask(t)
    requires MtxBlocks(k, c, m, x) ==> k.mtx[m].owner != t
    ensures SamePriorities(k, TlocMtx(k, c, m, x).0, t)
  {
    hide QShape, TlocMtx, OwnersOk;
    if MtxBlocks(k, c, m, x) {
      MtxBlocksIs(k, c, m, x);
      LockTable(k, c, m, x);
    } else {
      FreeLockTable(k, c, m, x);
    }
  }

  lemma PlainPriorities(k: KState, c: nat, call: Call, t: nat)
    requires Shape(k) && WellTyped(c, call) && IsTask(t) && !(call.Cre? && t == call.t)
    requires call.Cre? || call.CreS? || call.Pol? || call.CreM?
    ensures SamePriorities(k, Exec(k, c, call).0, t)
  {
    hide QShape;
  }

  lemma NobodyWoken(k: KState, c: nat)
    requires Shape(k) && c < 2
    ensures WupTsk(k, c, SLOTS).0 == k
  {
    hide QShape;
  }

  lemma NobodyStarted(k: KState, c: nat, id: nat)
    requires Shape(k) && c < 2 && id >= SLOTS
    ensures ActTsk(k, c, id).0 == k
  {
    hide QShape;
  }

  lemma UnlockKeepsOthers(k: KState, c: nat, m: nat, t: nat)
    requires Shape(k) && c < 2 && IsTask(t) && t != k.cur[c]
    ensures SamePriorities(k, UnlMtx(k, c, m).0, t)
  {
    hide QShape, PassMtx, Settle;
    if Unlocks(k, c, m) {
      PassTable(k, m);
      SettleTable(PassMtx(k, m), k.cur[c]);
    }
  }

  lemma CallPriority(k: KState, c: nat, call: Call, t: nat)
    requires Inv(k) && MayCall(k, c, call) && IsTask(t)
    ensures var r, op := Exec(k, c, call).0, Syscall(c, call);
            && Inv(r) && Shape(k) && Shape(r)
            && (forall p :: Lends(k, op, t, p) ==>
                  Owner(r, t) && r.tsk[t].pri == Min(k.tsk[t].pri, p) && r.tsk[t].bpri == k.tsk[t].bpri)
            && ((forall p :: !Lends(k, op, t, p)) ==>
                  !Owner(r, t) || SamePriorities(k, r, t))
  {
    hide Inv, MayCall, Exec, Owner, MtxBlocks, QShape, OwnersOk, Unlocks;
    InvIsShape(k);
    MayCallCaller(k, c, call);
    ExecKeepsInv(k, c, call);
    InvIsShape(Exec(k, c, call).0);
    if call.Loc? && MtxBlocks(k, c, call.m, call.tmout) { MtxBlocksIs(k, c, call.m, call.tmout); }
    if call.Loc? && MtxBlocks(k, c, call.m, call.tmout) && k.mtx[call.m].owner == t {
      assert Lends(k, Syscall(c, call), t, k.tsk[k.cur[c]].pri);
      LentPriority(k, c, call.m, call.tmout);
    } else if call.Unl? && t == k.cur[c] {
      UnlockByOwner(k, c, call.m);
    } else if call.Cre? && t == call.t {
      CreatedPriority(k, c, call.t, call.p);
    } else {
      PriorityKept(k, c, call, t);
    }
  }

  ghost predicate OwnedAfter(k: KState, r: KState, m: nat) {
    m < |k.mtx| && Owner(r, k.mtx[m].owner)
  }

  lemma LentPriority(k: KState, c: nat, m: nat, x: nat)
    requires Shape(k) && WellTyped(c, Loc(m, x)) && MtxBlocks(k, c, m, x)
    ensures Inherits(k, Exec(k, c, Loc(m, x)).0, c, m) && OwnedAfter(k, Exec(k, c, Loc(m, x)).0, m)
  {
    hide MtxBlocks, QShape, OwnersOk, Exec, Owner, TlocMtx, Inherits;
    MtxBlocksIs(k, c, m, x);
    ExecLoc(k, c, m, x);
    LockPriorities(k, c, m, x);
    StillOwner(Exec(k, c, Loc(m, x)).0, m);
  }

  lemma StillOwner(k: KState, m: nat)
    requires Shape(k) && 1 <= m < SLOTS && k.mtx[m].lock
    ensures Owner(k, k.mtx[m].owner)
  {
    hide QShape;
  }

  lemma UnlockByOwner(k: KState, c: nat, m: nat)
    requires Inv(k) && Shape(k) && MayCall(k, c, Unl(m)) && c < 2
    ensures var r, t := Exec(k, c, Unl(m)).0, k.cur[c];
            && IsTask(t) && Shape(r)
            && (!Owner(r, t) || SamePriorities(k, r, t))
  {
    hide Inv, MayCall, QShape, OwnersOk, PassMtx, Settle, Owner;
    ExecKeepsInv(k, c, Unl(m));
    InvIsShape(Exec(k, c, Unl(m)).0);
    if Unlocks(k, c, m) {
      UnlockPriorities(k, c, m);
      OwnerIff(Exec(k, c, Unl(m)).0, k.cur[c]);
    }
  }

  lemma CreatedPriority(k: KState, c: nat, t: nat, p: Pri)
    requires Inv(k) && Shape(k) && MayCall(k, c, Cre(t, p)) && WellTyped(c, Cre(t, p)) && IsTask(t)
    ensures var r := Exec(k, c, Cre(t, p)).0;
            && Shape(r)
            && (!Owner(r, t) || SamePriorities(k, r, t))
  {
    hide Inv, MayCall, QShape, OwnersOk, Owner;
    ExecKeepsInv(k, c, Cre(t, p));
    InvIsShape(Exec(k, c, Cre(t, p)).0);
    OwnerIff(Exec(k, c, Cre(t, p)).0, t);
  }

  /** What one step does to a task's priority: a lender can only make it smaller, and without one it stays as it is
      while the task owns a mutex. */
  lemma PriorityStep(k: KState, op: Op, t: nat)
    requires Inv(k) && Enabled(k, op) && IsTask(t)
    ensures var r := Apply(k, op);
            && Inv(r) && Shape(k) && Shape(r)
            && (!Owner(r, t) ==> r.tsk[t].pri == r.tsk[t].bpri)
            && (forall p :: Lends(k, op, t, p) ==>
                  Owner(r, t) && r.tsk[t].pri == Min(k.tsk[t].pri, p) && r.tsk[t].bpri == k.tsk[t].bpri)
            && ((forall p :: !Lends(k, op, t, p)) ==>
                  !Owner(r, t) || SamePriorities(k, r, t))
  {
    hide Inv, Owner, Exec, Tick, MayCall, Dispatch, Lends, QShape, OwnersOk;
    InvIsShape(k);
    StepKeepsInv(k, op);
    InvIsShape(Apply(k, op));
    OwnerIff(Apply(k, op), t);
    match op
    case Syscall(c, call) =>
      MayCallCaller(k, c, call);
      CallPriority(k, c, call, t);
      CallTable(k, c, call);
      SameOwner(Exec(k, c, call).0, Apply(k, op), t);
    case TimerTick =>
      NoLender(k, op, t);
      TickEffect(k);
    case Resume(c) =>
      NoLender(k, op, t);
      DispatchTable(k, c);
  }

  lemma NoLender(k: KState, op: Op, t: nat)
    requires !op.Syscall?
    ensures forall p :: !Lends(k, op, t, p)
  {}

  lemma SameOwner(k: KState, r: KState, t: nat)
    requires r.mtx == k.mtx
    ensures Owner(k, t) <==> Owner(r, t)
  {}

  /** The priority of t is the smallest of its base priority and of all priorities lent to it since it last owned no
      mutex: at most each of them, and equal to one. */
  ghost predicate PriorityExplained(ks: seq<KState>, ops: seq<Op>, t: nat, n: nat) {
    && |ks| == |ops| + 1 && n <= |ops| && t < |ks[n].tsk|
    && ks[n].tsk[t].pri <= ks[n].tsk[t].bpri
    && (forall j, p :: LentSince(ks, ops, t, p, j, n) ==> ks[n].tsk[t].pri <= p)
    && (ks[n].tsk[t].pri == ks[n].tsk[t].bpri || exists j :: LentSince(ks, ops, t, ks[n].tsk[t].pri, j, n))
  }

  /** Over every run that begins with t at its base priority, t has its base priority, or one it inherited from a task
      that waited for a mutex it owned, and that is the most urgent it has inherited while it has owned mutexes. */
  lemma {:induction false} PriorityInherited(ks: seq<KState>, ops: seq<Op>, t: nat, n: nat)
    requires IsRun(ks, ops) && Inv(ks[0]) && IsTask(t) && n <= |ops|
    requires |ks[0].tsk| == SLOTS && ks[0].tsk[t].pri == ks[0].tsk[t].bpri
    ensures Inv(ks[n]) && PriorityExplained(ks, ops, t, n)
  {
    hide Inv, Enabled, Apply, LentSince, Owner, Lends;
    if n == 0 {
      NothingLentYet(ks, ops, t);
    } else {
      PriorityInherited(ks, ops, t, n - 1);
      assert Enabled(ks[n - 1], ops[n - 1]) && ks[n] == Apply(ks[n - 1], ops[n - 1]);
      PriorityStep(ks[n - 1], ops[n - 1], t);
      ExplainedStep(ks, ops, t, n - 1);
    }
  }

  lemma NothingLentYet(ks: seq<KState>, ops: seq<Op>, t: nat)
    ensures forall j, p :: !LentSince(ks, ops, t, p, j, 0)
  {}

  lemma LentNext(ks: seq<KState>, ops: seq<Op>, t: nat, n: nat, j: nat, p: nat)
    requires |ks| == |ops| + 1 && n < |ops|
    ensures LentSince(ks, ops, t, p, j, n + 1) <==>
            Owner(ks[n + 1], t) && (LentSince(ks, ops, t, p, j, n) || (j == n && Lends(ks[n], ops[n], t, p)))
  {
    hide Owner, Lends;
  }

  lemma ExplainedStep(ks: seq<KState>, ops: seq<Op>, t: nat, n: nat)
    requires |ks| == |ops| + 1 && n < |ops| && PriorityExplained(ks, ops, t, n) && t < |ks[n + 1].tsk|
    requires !Owner(ks[n + 1], t) ==> ks[n + 1].tsk[t].pri == ks[n + 1].tsk[t].bpri
    requires forall p :: Lends(ks[n], ops[n], t, p) ==>
               && Owner(ks[n + 1], t) && ks[n + 1].tsk[t].bpri == ks[n].tsk[t].bpri
               && ks[n + 1].tsk[t].pri == Min(ks[n].tsk[t].pri, p)
    requires (forall p :: !Lends(ks[n], ops[n], t, p)) ==> !Owner(ks[n + 1], t) || SamePriorities(ks[n], ks[n + 1], t)
    ensures PriorityExplained(ks, ops, t, n + 1)
  {
    hide Owner, Lends, LentSince;
    var x, y, next := ks[n].tsk[t], ks[n + 1].tsk[t], n + 1;
    forall j, p | LentSince(ks, ops, t, p, j, next) ensures y.pri <= p {
      LentNext(ks, ops, t, n, j, p);
    }
    if y.pri != y.bpri {
      if x.pri == y.pri && x.pri != x.bpri {
        var j :| LentSince(ks, ops, t, x.pri, j, n);
        LentNext(ks, ops, t, n, j, x.pri);
      } else {
        LentNext(ks, ops, t, n, n, y.pri);
      }
    }
  }
}
