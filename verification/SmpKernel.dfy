/** The kernel under the Big Kernel Lock: its invariant holds whenever the lock is free, however the two CPUs
    interleave.

    What happens inside the lock is a whole service call without the write of its result to the caller, a whole tick,
    or a whole run of the dispatcher.  The result is written, and the reschedule flag read and cleared, without the
    lock. */
module SmpKernel {
  import opened Links
  import opened Timeouts
  import opened KernelState
  import opened KernelInvariant
  import opened KernelSteps
  import opened KernelMutex
  import opened KernelTick
  import opened KernelRuns
  import BigLock

  datatype LockedOp = Call(c: nat, call: KernelRuns.Call) | Timer | Schedule(c: nat)

  ghost predicate MayRun(k: KState, op: LockedOp) {
    && Shape(k)
    && match op
       case Call(c, call) => MayCall(k, c, call)
       case Timer => true
       case Schedule(c) => c < 2
  }

  /** The part of a call, of the timer interrupt or of the way out of the kernel that runs inside the lock. */
  ghost function Locked(k: KState, op: LockedOp): KState
    requires MayRun(k, op)
  {
    match op
    case Call(c, call) => Exec(k, c, call).0
    case Timer => Tick(k)
    case Schedule(c) => DoNext(k, c).0
  }

  /** Everything the lock protects: all but the reschedule flags and the return value slots. */
  function Core(k: KState): KState {
    k.(flag := seq(|k.flag|, _ => false), tsk := seq(|k.tsk|, t requires 0 <= t < |k.tsk| => k.tsk[t].(eax := 0)))
  }

  /** The steps of a program add up to the locked operations, wherever those are allowed, in all the lock protects. */
  ghost predicate Implements<L(!new)>(p: BigLock.Program<L, KState, LockedOp>) {
    && BigLock.Respects(Core, p)
    && forall c, op, n, s :: MayRun(s, op) && BigLock.Takes(p, c, op, n, s) ==>
         Core(BigLock.After(p, c, op, n, s).s) == Core(Locked(s, op))
  }

  lemma SameButEax(k: KState, r: KState)
    requires Core(k) == Core(r)
    ensures |k.tsk| == |r.tsk| && |k.flag| == |r.flag| && r == k.(tsk := r.tsk, flag := r.flag)
    ensures forall t :: 0 <= t < |k.tsk| ==> r.tsk[t] == k.tsk[t].(eax := r.tsk[t].eax)
  {
    var c, d := Core(k), Core(r);
    assert |c.tsk| == |k.tsk| && |d.tsk| == |r.tsk| && |c.flag| == |k.flag| && |d.flag| == |r.flag|;
    forall t | 0 <= t < |k.tsk| ensures r.tsk[t] == k.tsk[t].(eax := r.tsk[t].eax) {
      assert c.tsk[t] == d.tsk[t];
    }
  }

  lemma EaxIrrelevant(tsk: Tasks, tsk': Tasks, q: Queues, mtx: seq<Mtx>, cur: seq<nat>)
    requires QShape(q) && |mtx| == SLOTS && |cur| == 2 && IsTask(cur[0]) && IsTask(cur[1])
    requires forall t :: 0 <= t < SLOTS ==> tsk'[t] == tsk[t].(eax := tsk'[t].eax)
    requires ReadyOk(tsk, q) && WaitOk(tsk, q) && CpuOk(tsk, cur) && IdleOk(tsk) && OwnOk(tsk, mtx)
    ensures ReadyOk(tsk', q) && WaitOk(tsk', q) && CpuOk(tsk', cur) && IdleOk(tsk') && OwnOk(tsk', mtx)
    ensures Alike(tsk, tsk')
  {
    hide Owned;
  }

  /** The invariant says nothing about the reschedule flags and the return values. */
  lemma InvIsAboutCore(k: KState, r: KState)
    requires Inv(k) && Core(k) == Core(r)
    ensures Inv(r)
  {
    hide LinksOk, SemOk, MtxOk, WellFormed, ReadyOk, WaitOk, CpuOk, IdleOk, OwnOk, Core, AllIds, Alike;
    SameButEax(k, r);
    EaxIrrelevant(k.tsk, r.tsk, k.q, k.mtx, k.cur);
    ObjectsKeep(k, r);
  }

  lemma LockedKeepsInv(k: KState, op: LockedOp)
    requires Inv(k) && MayRun(k, op)
    ensures Inv(Locked(k, op))
  {
    hide Inv, Exec, Tick, DoNext, MayCall;
    match op
    case Call(c, call) => ExecKeepsInv(k, c, call);
    case Timer => TickEffect(k);
    case Schedule(c) => DoNextKeepsInv(k, c);
  }

  lemma ImplementsKeeps<L(!new)>(p: BigLock.Program<L, KState, LockedOp>)
    requires Implements(p)
    ensures BigLock.Keeps(p, k => Inv(k), (c, op, k) => MayRun(k, op))
    ensures BigLock.AboutCore(Core, k => Inv(k))
  {
    hide Inv, MayRun, Locked, Core, BigLock.Takes, BigLock.After, BigLock.Respects;
    forall c, op, n, s | Inv(s) && MayRun(s, op) && BigLock.Takes(p, c, op, n, s)
      ensures Inv(BigLock.After(p, c, op, n, s).s)
    {
      LockedKeepsInv(s, op);
      InvIsAboutCore(Locked(s, op), BigLock.After(p, c, op, n, s).s);
    }
    forall k, r | Core(k) == Core(r) && Inv(k) ensures Inv(r) {
      InvIsAboutCore(k, r);
    }
  }

  /** From start-up on, in every interleaving of two CPUs and with any writes to return value slots and reschedule flags
      in between, the kernel invariant holds whenever the lock is free. */
  lemma InvariantUnderLock<L(!new)>(
    p: BigLock.Program<L, KState, LockedOp>, ms: seq<BigLock.Smp<KState, L, LockedOp>>,
    acts: seq<BigLock.Action<KState, LockedOp>>, n: nat)
    requires Implements(p) && BigLock.IsRun(Core, p, ms, acts) && ms[0] == BigLock.Start(Boot())
    requires n <= |acts| && ms[n].lock == 0
    requires BigLock.AllAllowed(p, Boot(), ms[n].log, (c, op, k) => MayRun(k, op))
    ensures Inv(ms[n].s)
  {
    hide Inv, MayRun, Boot, Core, BigLock.IsRun, BigLock.AllAllowed, BigLock.Start, BigLock.Keeps, BigLock.AboutCore,
      BigLock.Takes, BigLock.After, BigLock.Respects;
    BootInv();
    ImplementsKeeps(p);
    BigLock.KeptWhenFree(Core, p, Boot(), ms, acts, n, k => Inv(k), (c, op, k) => MayRun(k, op));
  }
}
