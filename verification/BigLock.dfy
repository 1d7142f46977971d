/** The Big Kernel Lock (i386/smp.c, klib.s, syscall.c, interrupt.c, kernel/sched.c): two CPUs whose kernel operations
    are made of many small steps on shared tables, serialised by an exchange spinlock.

    The model is independent of what the operations do: S is the type of the shared tables, L that of the private
    state of an operation in progress, Op that of the operations (system calls, timer and key interrupts, dispatches).
    Some fields are written without the lock, the reschedule flags and the return value slots; core maps the tables to
    all the rest. */
module BigLock {
  datatype Outcome<L, S> = Outcome(l: L, s: S, done: bool)

  /** What CPU c does for an operation: its private start state, and one step of it. */
  datatype Program<!L, !S, !Op> = Program(start: (nat, Op) -> L, step: (nat, Op, L, S) -> Outcome<L, S>)

  /** The operation after n steps with nobody else touching the tables. */
  function After<L, S, Op>(p: Program<L, S, Op>, c: nat, op: Op, n: nat, s: S): Outcome<L, S>
    decreases n
  {
    if n == 0 then Outcome(p.start(c, op), s, false)
    else
      var o := After(p, c, op, n - 1, s);
      if o.done then o else p.step(c, op, o.l, o.s)
  }

  /** The whole operation takes n steps from s. */
  predicate Takes<L, S, Op>(p: Program<L, S, Op>, c: nat, op: Op, n: nat, s: S) {
    n > 0 && After(p, c, op, n, s).done && !After(p, c, op, n - 1, s).done
  }

  /** Where a CPU is.  second tells the acquisition by the dispatcher on the way out from the first one. */
  datatype Phase<Op, L> =
    | User
    | Spin(op: Op, second: bool)
    | Inside(op: Op, l: L, second: bool)
    | Unlocking(second: bool)
    | Left(second: bool)

  predicate Holds<Op, L>(f: Phase<Op, L>) { f.Inside? || f.Unlocking? }

  datatype Entry<Op> = Entry(c: nat, op: Op, steps: nat)

  /** log lists the finished operations; acquired lists the acquisitions of the lock; steps counts those of the
      operation in progress. */
  datatype Smp<S, L, Op> = Smp(lock: nat, cpu: seq<Phase<Op, L>>, s: S, log: seq<Entry<Op>>, acquired: seq<(nat, Op)>,
                               steps: nat)

  datatype Action<S, Op> =
    | Trap(c: nat, op: Op)             // a task makes a call, or is interrupted
    | Try(c: nat)                      // one exchange in smp_lock
    | Work(c: nat)                     // one step on the tables
    | Release(c: nat)                  // smp_unlock
    | Outside(c: nat, s: S)            // a write to a field that the lock does not protect
    | Dispatch(c: nat, op: Op)         // next_tsk_flag is set: sched_do_next_tsk
    | Return(c: nat)                   // back to user mode

  /** xchgl: the old value, and the value that is stored. */
  function Cxchg(word: nat, val: nat): (nat, nat) { (word, val) }

  ghost predicate Enabled<S, L, Op, K>(core: S -> K, m: Smp<S, L, Op>, a: Action<S, Op>) {
    && |m.cpu| == 2 && a.c < 2
    && match a
       case Trap(c, op) => m.cpu[c].User?
       case Try(c) => m.cpu[c].Spin?
       case Work(c) => m.cpu[c].Inside?
       case Release(c) => m.cpu[c].Unlocking?
       case Outside(c, s) => !Holds(m.cpu[c]) && core(s) == core(m.s)
       case Dispatch(c, op) => m.cpu[c] == Left(false)
       case Return(c) => m.cpu[c].Left?
  }

  ghost function Next<S, L, Op, K>(core: S -> K, p: Program<L, S, Op>, m: Smp<S, L, Op>, a: Action<S, Op>)
      : Smp<S, L, Op>
    requires Enabled(core, m, a)
  {
    match a
    case Trap(c, op) => m.(cpu := m.cpu[c := Spin(op, false)])
    case Try(c) =>
      var (old_, new_) := Cxchg(m.lock, 1);
      if old_ == 0 then
        var f := m.cpu[c];
        m.(lock := new_, cpu := m.cpu[c := Inside(f.op, p.start(c, f.op), f.second)],
           acquired := m.acquired + [(c, f.op)], steps := 0)
      else m.(lock := new_)
    case Work(c) =>
      var f := m.cpu[c];
      var o := p.step(c, f.op, f.l, m.s);
      if o.done then
        m.(cpu := m.cpu[c := Unlocking(f.second)], s := o.s, log := m.log + [Entry(c, f.op, m.steps + 1)], steps := 0)
      else m.(cpu := m.cpu[c := Inside(f.op, o.l, f.second)], s := o.s, steps := m.steps + 1)
    case Release(c) => m.(lock := Cxchg(m.lock, 0).1, cpu := m.cpu[c := Left(m.cpu[c].second)])
    case Outside(c, s) => m.(s := s)
    case Dispatch(c, op) => m.(cpu := m.cpu[c := Spin(op, true)])
    case Return(c) => m.(cpu := m.cpu[c := User])
  }

  /** What a step does to its private state and to the core of the tables, and when the operation ends, depends on the
      tables only through their core. */
  ghost predicate Respects<S(!new), L(!new), Op(!new), K>(core: S -> K, p: Program<L, S, Op>) {
    forall c, op, l, s, s' :: core(s) == core(s') ==>
      var o, o' := p.step(c, op, l, s), p.step(c, op, l, s');
      o.l == o'.l && o.done == o'.done && core(o.s) == core(o'.s)
  }

  // ----- Serial runs -----

  /** The tables after the operations of the log, each run to its end before the next begins. */
  function Serial<L, S, Op>(p: Program<L, S, Op>, s0: S, log: seq<Entry<Op>>): S {
    if log == [] then s0
    else
      var e := log[|log| - 1];
      After(p, e.c, e.op, e.steps, Serial(p, s0, log[..|log| - 1])).s
  }

  ghost predicate WholeOps<L, S, Op>(p: Program<L, S, Op>, s0: S, log: seq<Entry<Op>>) {
    forall i {:trigger log[i]} :: 0 <= i < |log| ==>
      Takes(p, log[i].c, log[i].op, log[i].steps, Serial(p, s0, log[..i]))
  }

  function Names<Op>(log: seq<Entry<Op>>): (r: seq<(nat, Op)>)
    ensures |r| == |log| && forall i :: 0 <= i < |r| ==> r[i] == (log[i].c, log[i].op)
  {
    seq(|log|, i requires 0 <= i < |log| => (log[i].c, log[i].op))
  }

  // ----- What every interleaving keeps -----

  /** The lock word is 1 exactly when one CPU is inside. */
  predicate LockOk<S, L, Op>(m: Smp<S, L, Op>) {
    && |m.cpu| == 2 && m.lock <= 1 && !(Holds(m.cpu[0]) && Holds(m.cpu[1]))
    && (m.lock == 1 <==> Holds(m.cpu[0]) || Holds(m.cpu[1]))
  }

  /** The core of the tables is that of a serial run of the finished operations, plus what the operation in progress has
      done. */
  ghost predicate Serialised<S, L, Op, K>(core: S -> K, p: Program<L, S, Op>, s0: S, m: Smp<S, L, Op>)
    requires |m.cpu| == 2
  {
    && WholeOps(p, s0, m.log)
    && (forall c :: 0 <= c < 2 && m.cpu[c].Inside? ==> InProgress(core, p, s0, m, c))
    && (!m.cpu[0].Inside? && !m.cpu[1].Inside? ==>
          core(m.s) == core(Serial(p, s0, m.log)) && m.acquired == Names(m.log))
  }

  ghost predicate InProgress<S, L, Op, K>(core: S -> K, p: Program<L, S, Op>, s0: S, m: Smp<S, L, Op>, c: nat)
    requires c < 2 && |m.cpu| == 2 && m.cpu[c].Inside?
  {
    var o := After(p, c, m.cpu[c].op, m.steps, Serial(p, s0, m.log));
    && !o.done && o.l == m.cpu[c].l && core(o.s) == core(m.s)
    && m.acquired == Names(m.log) + [(c, m.cpu[c].op)]
  }

  ghost predicate IsRun<S, L, Op, K>(core: S -> K, p: Program<L, S, Op>, ms: seq<Smp<S, L, Op>>,
      acts: seq<Action<S, Op>>)
  {
    && |ms| == |acts| + 1
    && forall i {:trigger acts[i]} :: 0 <= i < |acts| ==>
         Enabled(core, ms[i], acts[i]) && ms[i + 1] == Next(core, p, ms[i], acts[i])
  }

  function Start<S, L, Op>(s0: S): Smp<S, L, Op> { Smp(0, [User, User], s0, [], [], 0) }

  lemma StepKeepsLock<S, L, Op, K>(core: S -> K, p: Program<L, S, Op>, m: Smp<S, L, Op>, a: Action<S, Op>)
    requires LockOk(m) && Enabled(core, m, a)
    ensures LockOk(Next(core, p, m, a))
  {
    assert a.c == 0 || a.c == 1;
  }

  lemma AppendWhole<L, S, Op>(p: Program<L, S, Op>, s0: S, log: seq<Entry<Op>>, e: Entry<Op>)
    requires WholeOps(p, s0, log) && Takes(p, e.c, e.op, e.steps, Serial(p, s0, log))
    ensures WholeOps(p, s0, log + [e])
    ensures Serial(p, s0, log + [e]) == After(p, e.c, e.op, e.steps, Serial(p, s0, log)).s
    ensures Names(log + [e]) == Names(log) + [(e.c, e.op)]
  {
    hide Takes, Serial;
    var l := log + [e];
    assert l[..|l| - 1] == log;
    forall i {:trigger l[i]} | 0 <= i < |l| ensures Takes(p, l[i].c, l[i].op, l[i].steps, Serial(p, s0, l[..i])) {
      assert l[..i] == log[..i];
      if i == |log| { assert log[..i] == log; } else { assert l[i] == log[i]; }
    }
    SerialLast(p, s0, l);
  }

  lemma SerialLast<L, S, Op>(p: Program<L, S, Op>, s0: S, l: seq<Entry<Op>>)
    requires l != []
    ensures var e := l[|l| - 1]; Serial(p, s0, l) == After(p, e.c, e.op, e.steps, Serial(p, s0, l[..|l| - 1])).s
  {}

  lemma WorkKeepsSerial<S(!new), L(!new), Op(!new), K>(core: S -> K, p: Program<L, S, Op>, s0: S, m: Smp<S, L, Op>,
      c: nat)
    requires LockOk(m) && Serialised(core, p, s0, m) && c < 2 && m.cpu[c].Inside? && Respects(core, p)
    ensures Serialised(core, p, s0, Next(core, p, m, Work(c)))
  {
    hide WholeOps, Serial, Names;
    var f, s := m.cpu[c], Serial(p, s0, m.log);
    var o := p.step(c, f.op, f.l, m.s);
    var was := After(p, c, f.op, m.steps, s);
    assert InProgress(core, p, s0, m, c);
    assert After(p, c, f.op, m.steps + 1, s) == p.step(c, f.op, was.l, was.s);
    if o.done {
      AppendWhole(p, s0, m.log, Entry(c, f.op, m.steps + 1));
    }
  }

  lemma StepKeepsSerial<S(!new), L(!new), Op(!new), K>(core: S -> K, p: Program<L, S, Op>, s0: S, m: Smp<S, L, Op>,
                                                      a: Action<S, Op>)
    requires LockOk(m) && Serialised(core, p, s0, m) && Enabled(core, m, a) && Respects(core, p)
    ensures Serialised(core, p, s0, Next(core, p, m, a))
  {
    hide WholeOps, Serial, Names, Respects;
    if a.Work? {
      WorkKeepsSerial(core, p, s0, m, a.c);
    } else if a.Try? && m.lock == 0 {
      var op := m.cpu[a.c].op;
      assert After(p, a.c, op, 0, Serial(p, s0, m.log)) == Outcome(p.start(a.c, op), Serial(p, s0, m.log), false);
    } else {
      forall c | 0 <= c < 2 && m.cpu[c].Inside? ensures InProgress(core, p, s0, m, c) {}
    }
  }

  /** Reduction: in every state of every interleaving, the lock word is 1 exactly when exactly one CPU is inside, and
      the core of the tables is that of a serial run of whole operations in the order in which the lock was acquired,
      followed by the steps so far of the one operation in progress. */
  lemma {:induction false} Reduction<S(!new), L(!new), Op(!new), K>(
    core: S -> K, p: Program<L, S, Op>, s0: S, ms: seq<Smp<S, L, Op>>, acts: seq<Action<S, Op>>, n: nat)
    requires Respects(core, p) && IsRun(core, p, ms, acts) && ms[0] == Start(s0) && n <= |acts|
    ensures LockOk(ms[n]) && Serialised(core, p, s0, ms[n])
  {
    hide LockOk, Serialised, Enabled, Next, Respects;
    if n == 0 {
      StartOk(core, p, s0);
    } else {
      Reduction(core, p, s0, ms, acts, n - 1);
      assert Enabled(core, ms[n - 1], acts[n - 1]) && ms[n] == Next(core, p, ms[n - 1], acts[n - 1]);
      StepKeepsLock(core, p, ms[n - 1], acts[n - 1]);
      StepKeepsSerial(core, p, s0, ms[n - 1], acts[n - 1]);
    }
  }

  lemma StartOk<S, L, Op, K>(core: S -> K, p: Program<L, S, Op>, s0: S)
    ensures LockOk(Start<S, L, Op>(s0)) && Serialised(core, p, s0, Start<S, L, Op>(s0))
  {}

  /** A CPU that goes on spinning does not hold the lock itself: the other one does, and that one can go on. */
  lemma NoSelfSpin<S(!new), L(!new), Op(!new), K>(
    core: S -> K, p: Program<L, S, Op>, s0: S, ms: seq<Smp<S, L, Op>>, acts: seq<Action<S, Op>>, n: nat, c: nat)
    requires Respects(core, p) && IsRun(core, p, ms, acts) && ms[0] == Start(s0) && n <= |acts|
    requires Enabled(core, ms[n], Try(c)) && Next(core, p, ms[n], Try(c)).cpu[c].Spin?
    ensures Holds(ms[n].cpu[1 - c])
    ensures Enabled(core, ms[n], Work(1 - c)) || Enabled(core, ms[n], Release(1 - c))
  {
    hide Respects, IsRun, Serialised;
    Reduction(core, p, s0, ms, acts, n);
  }

  /** Every operation that was begun where it is allowed keeps inv. */
  ghost predicate Keeps<S(!new), L(!new), Op(!new)>(p: Program<L, S, Op>, inv: S -> bool, may: (nat, Op, S) -> bool) {
    forall c, op, k, s :: inv(s) && may(c, op, s) && Takes(p, c, op, k, s) ==> inv(After(p, c, op, k, s).s)
  }

  /** inv is about the core of the tables. */
  ghost predicate AboutCore<S(!new), K>(core: S -> K, inv: S -> bool) {
    forall s, s' :: core(s) == core(s') && inv(s) ==> inv(s')
  }

  ghost predicate AllAllowed<S, L, Op>(p: Program<L, S, Op>, s0: S, log: seq<Entry<Op>>, may: (nat, Op, S) -> bool) {
    forall i {:trigger log[i]} :: 0 <= i < |log| ==> may(log[i].c, log[i].op, Serial(p, s0, log[..i]))
  }

  /** With the lock free, the tables satisfy whatever every whole operation keeps. */
  lemma KeptWhenFree<S(!new), L(!new), Op(!new), K>(
    core: S -> K, p: Program<L, S, Op>, s0: S, ms: seq<Smp<S, L, Op>>, acts: seq<Action<S, Op>>, n: nat, inv: S -> bool,
    may: (nat, Op, S) -> bool)
    requires Respects(core, p) && IsRun(core, p, ms, acts) && ms[0] == Start(s0) && n <= |acts| && ms[n].lock == 0
    requires inv(s0) && Keeps(p, inv, may) && AboutCore(core, inv) && AllAllowed(p, s0, ms[n].log, may)
    ensures inv(ms[n].s)
  {
    hide Respects, Keeps, AllAllowed;
    Reduction(core, p, s0, ms, acts, n);
    SerialKeeps(p, s0, ms[n].log, inv, may);
  }

  lemma {:induction false} SerialKeeps<S(!new), L(!new), Op(!new)>(
    p: Program<L, S, Op>, s0: S, log: seq<Entry<Op>>, inv: S -> bool, may: (nat, Op, S) -> bool)
    requires WholeOps(p, s0, log) && inv(s0) && Keeps(p, inv, may) && AllAllowed(p, s0, log, may)
    ensures inv(Serial(p, s0, log))
  {
    if log != [] {
      var i := |log| - 1;
      var e := log[i];
      var l := log[..i];
      forall j {:trigger l[j]} | 0 <= j < i
        ensures Takes(p, l[j].c, l[j].op, l[j].steps, Serial(p, s0, l[..j]))
          && may(l[j].c, l[j].op, Serial(p, s0, l[..j]))
      {
        assert l[..j] == log[..j] && l[j] == log[j];
      }
      SerialKeeps(p, s0, l, inv, may);
      assert Takes(p, e.c, e.op, e.steps, Serial(p, s0, l)) && may(e.c, e.op, Serial(p, s0, l));
    }
  }
}
