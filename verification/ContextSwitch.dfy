/** Context switching between tasks on two CPUs (i386/intr.s, proc.c, tss.c, klib.s, syscall.c), word by word.

    The kernel stacks of all tasks are one array of words; task t owns words [t * 1024, (t + 1) * 1024), and a kernel
    stack pointer is the index of a word.  An entry from user mode pushes 14 words, es at the lowest index:
      es ds edi esi ebp ebx edx ecx eax eip cs eflags esp ss. */
module ContextSwitch {
  type Word = x: int | 0 <= x < 0x1_0000_0000

  const STACK_WORDS: nat := 1024
  const MAX_TSKID: nat := 16

  /** The address behind "call intr_leave", which is also the label intr_return_restore. */
  const INTR_RETURN_RESTORE: Word := 0x3500

  /** The user-mode entry of ext_tsk, where a task function returns to. */
  const EXT_TSK: Word := 0x8100

  const SEL_K32_D: Word := 0x28
  const SEL_U32_C: Word := 0x58
  const SEL_U32_D: Word := 0x60
  const SEL_U32_S: Word := 0x68
  const INIT_EFLAGS: Word := 0x200

  datatype Regs = Regs(es: Word, ds: Word, edi: Word, esi: Word, ebp: Word, ebx: Word, edx: Word, ecx: Word, eax: Word,
                       eip: Word, cs: Word, eflags: Word, esp: Word, ss: Word)

  const NoRegs := Regs(0, 0, 0, 0, 0, 0, 0, 0, 0, 0, 0, 0, 0, 0)

  datatype Mode = Boot | User | Kernel

  predicate IsTask(t: int) { 1 <= t < MAX_TSKID }

  /** kern_stack_top of task t. */
  function Top(t: nat): nat { (t + 1) * STACK_WORDS }

  /** The 14 words from index f on, as registers. */
  function FrameAt(m: seq<Word>, f: nat): Regs
    requires f + 14 <= |m|
  {
    Regs(m[f], m[f + 1], m[f + 2], m[f + 3], m[f + 4], m[f + 5], m[f + 6], m[f + 7], m[f + 8],
         m[f + 9], m[f + 10], m[f + 11], m[f + 12], m[f + 13])
  }

  /** The frame at the top of the stack of task t. */
  function Frame(m: seq<Word>, t: nat): Regs
    requires |m| == MAX_TSKID * STACK_WORDS && IsTask(t)
  {
    FrameAt(m, Top(t) - 14)
  }

  // ----- What the tasks see -----

  /** The task view of the machine: which task each CPU serves, whether it is in user mode, its user registers, and for
      every other task the registers it will find when it is resumed. */
  datatype Contexts = Contexts(cur: seq<nat>, user: seq<bool>, regs: seq<Regs>, saved: map<nat, Regs>)

  datatype Event =
    | Run(c: nat, r: Regs)          // user code runs on CPU c and leaves registers r
    | Enter(c: nat)                 // interrupt or system call on CPU c
    | SetEax(t: nat, v: Word)       // a return value is stored for task t
    | Resume(c: nat, t: nat)        // CPU c leaves the kernel, to task t
    | Create(t: nat, r: Regs)       // task t gets its first frame

  ghost predicate Consistent(k: Contexts) {
    && |k.cur| == 2 && |k.user| == 2 && |k.regs| == 2 && k.cur[0] != k.cur[1]
    && forall c :: 0 <= c < 2 && k.user[c] ==> k.cur[c] !in k.saved
  }

  ghost predicate Allowed(k: Contexts, e: Event)
    requires Consistent(k)
  {
    match e
    case Run(c, r) => c < 2 && k.user[c]
    case Enter(c) => c < 2 && k.user[c]
    case SetEax(t, v) => true
    case Resume(c, t) => c < 2 && !k.user[c] && t in k.saved && t != k.cur[1 - c]
    case Create(t, r) => forall c :: 0 <= c < 2 && k.user[c] ==> k.cur[c] != t
  }

  function Next(k: Contexts, e: Event): Contexts
    requires |k.cur| == 2 && |k.user| == 2 && |k.regs| == 2
  {
    match e
    case Run(c, r) => if c < 2 then k.(regs := k.regs[c := r]) else k
    case Enter(c) =>
      if c < 2 then k.(user := k.user[c := false], regs := k.regs[c := NoRegs], saved := k.saved[k.cur[c] := k.regs[c]])
      else k
    case SetEax(t, v) => if t in k.saved then k.(saved := k.saved[t := k.saved[t].(eax := v)]) else k
    case Resume(c, t) =>
      if c < 2 && t in k.saved then
        Contexts(k.cur[c := t], k.user[c := true], k.regs[c := k.saved[t]], k.saved - {t})
      else k
    case Create(t, r) => k.(saved := k.saved[t := r])
  }

  // ----- Values of the machine state -----

  ghost predicate Sized(m: seq<Word>, cur: seq<nat>, mode: seq<Mode>, regs: seq<Regs>, created: set<nat>) {
    && |m| == MAX_TSKID * STACK_WORDS && |cur| == 2 && |mode| == 2 && |regs| == 2 && IsTask(cur[0]) && IsTask(cur[1])
    && cur[0] != cur[1]
    && (forall t :: t in created ==> IsTask(t))
    && (forall c :: 0 <= c < 2 && mode[c] != Boot ==> cur[c] in created)
  }

  /** Task t runs in the given mode on some CPU. */
  predicate In(t: nat, md: Mode, cur: seq<nat>, mode: seq<Mode>)
    requires |cur| == 2 && |mode| == 2
  {
    (cur[0] == t && mode[0] == md) || (cur[1] == t && mode[1] == md)
  }

  function UserRegs(mode: Mode, r: Regs): Regs { if mode == User then r else NoRegs }

  ghost function ViewOf(m: seq<Word>, cur: seq<nat>, mode: seq<Mode>, regs: seq<Regs>, created: set<nat>): Contexts
    requires Sized(m, cur, mode, regs, created)
  {
    Contexts(cur, [mode[0] == User, mode[1] == User], [UserRegs(mode[0], regs[0]), UserRegs(mode[1], regs[1])],
             map t | t in created && !In(t, User, cur, mode) :: Frame(m, t))
  }

  /** Every created task that no CPU serves can be resumed by "ret". */
  ghost predicate Resumable(m: seq<Word>, cur: seq<nat>, mode: seq<Mode>, created: set<nat>)
    requires |m| == MAX_TSKID * STACK_WORDS && |cur| == 2 && |mode| == 2 && forall t :: t in created ==> IsTask(t)
  {
    forall t :: t in created && IsTask(t) && !In(t, User, cur, mode) && !In(t, Kernel, cur, mode) ==>
      m[Top(t) - 15] == INTR_RETURN_RESTORE
  }

  /** No word outside [lo, hi) changes. */
  ghost predicate Only(m: seq<Word>, m': seq<Word>, lo: int, hi: int) {
    |m| == |m'| && forall i :: 0 <= i < |m| && !(lo <= i < hi) ==> m'[i] == m[i]
  }

  lemma FrameElsewhere(m: seq<Word>, m': seq<Word>, lo: int, hi: int, t: nat)
    requires |m| == MAX_TSKID * STACK_WORDS && IsTask(t) && Only(m, m', lo, hi)
    requires hi <= Top(t) - 14 || Top(t) <= lo
    ensures Frame(m', t) == Frame(m, t)
  {}

  /** Writing the stack of one task leaves the frames and return addresses of all others. */
  lemma StackIsPrivate(m: seq<Word>, m': seq<Word>, t: nat, created: set<nat>)
    requires |m| == MAX_TSKID * STACK_WORDS && IsTask(t) && Only(m, m', Top(t) - STACK_WORDS, Top(t))
    requires forall u :: u in created ==> IsTask(u)
    ensures forall u :: u in created && u != t ==> Frame(m', u) == Frame(m, u) && m'[Top(u) - 15] == m[Top(u) - 15]
  {
    forall u | u in created && u != t ensures Frame(m', u) == Frame(m, u) && m'[Top(u) - 15] == m[Top(u) - 15] {
      FrameElsewhere(m, m', Top(t) - STACK_WORDS, Top(t), u);
    }
  }

  lemma EnterView(m: seq<Word>, m': seq<Word>, cur: seq<nat>, mode: seq<Mode>, regs: seq<Regs>, regs': seq<Regs>,
                  created: set<nat>, c: nat)
    requires c < 2 && Sized(m, cur, mode, regs, created) && mode[c] == User && Resumable(m, cur, mode, created)
    requires Only(m, m', Top(cur[c]) - STACK_WORDS, Top(cur[c])) && Frame(m', cur[c]) == regs[c]
    requires |regs'| == 2 && regs'[1 - c] == regs[1 - c]
    ensures Sized(m', cur, mode[c := Kernel], regs', created) && Resumable(m', cur, mode[c := Kernel], created)
    ensures ViewOf(m', cur, mode[c := Kernel], regs', created) == Next(ViewOf(m, cur, mode, regs, created), Enter(c))
  {
    hide Frame, FrameAt;
    StackIsPrivate(m, m', cur[c], created);
    var v, w := ViewOf(m', cur, mode[c := Kernel], regs', created), Next(ViewOf(m, cur, mode, regs, created), Enter(c));
    assert v.user == w.user && v.regs == w.regs;
    assert v.saved == w.saved;
  }

  /** The stack of the task that leaves is written below its frame, then that of task n below its return address. */
  lemma TwoStacks(m: seq<Word>, m1: seq<Word>, m2: seq<Word>, o: nat, n: nat, created: set<nat>)
    requires |m| == MAX_TSKID * STACK_WORDS && (forall u :: u in created ==> IsTask(u)) && o in created && n in created
    requires Only(m, m1, Top(o) - STACK_WORDS, Top(o) - 14) && Only(m1, m2, Top(n) - STACK_WORDS, Top(n) - 15)
    ensures |m2| == |m1| == |m| && forall u :: u in created ==> IsTask(u) && Frame(m2, u) == Frame(m, u)
    ensures forall u :: u in created && u != o ==> IsTask(u) && m1[Top(u) - 15] == m[Top(u) - 15]
    ensures forall u :: u in created ==> IsTask(u) && m2[Top(u) - 15] == m1[Top(u) - 15]
  {
    hide FrameAt;
    StackIsPrivate(m, m1, o, created);
    FrameElsewhere(m, m1, Top(o) - STACK_WORDS, Top(o) - 14, o);
    StackIsPrivate(m1, m2, n, created);
    FrameElsewhere(m1, m2, Top(n) - STACK_WORDS, Top(n) - 15, n);
  }

  lemma LeaveView(m: seq<Word>, m': seq<Word>, cur: seq<nat>, mode: seq<Mode>, regs: seq<Regs>, regs': seq<Regs>,
                  created: set<nat>, c: nat, n: nat)
    requires c < 2 && Sized(m, cur, mode, regs, created) && mode[c] == Kernel && Resumable(m, cur, mode, created)
    requires n in created && n != cur[1 - c] && |m'| == |m|
    requires forall u :: u in created ==> Frame(m', u) == Frame(m, u)
    requires forall u :: u in created && u != cur[c] ==> m'[Top(u) - 15] == m[Top(u) - 15]
    requires m'[Top(cur[c]) - 15] == INTR_RETURN_RESTORE
    requires |regs'| == 2 && regs'[1 - c] == regs[1 - c] && regs'[c] == Frame(m', n)
    ensures Sized(m', cur[c := n], mode[c := User], regs', created)
      && Resumable(m', cur[c := n], mode[c := User], created)
    ensures ViewOf(m', cur[c := n], mode[c := User], regs', created)
         == Next(ViewOf(m, cur, mode, regs, created), Resume(c, n))
  {
    hide Frame, FrameAt;
    SwitchMap(m, m', cur, mode, regs, regs', created, c, n);
  }

  lemma StillResumable(m: seq<Word>, m': seq<Word>, cur: seq<nat>, mode: seq<Mode>, created: set<nat>, c: nat, n: nat)
    requires |m| == |m'| == MAX_TSKID * STACK_WORDS && |cur| == 2 && |mode| == 2 && c < 2
    requires (forall t :: t in created ==> IsTask(t)) && Resumable(m, cur, mode, created) && cur[c] != cur[1 - c]
    requires n in created && n != cur[1 - c] && IsTask(cur[c]) && m'[Top(cur[c]) - 15] == INTR_RETURN_RESTORE
    requires forall u :: u in created && u != cur[c] ==> m'[Top(u) - 15] == m[Top(u) - 15]
    ensures m'[Top(n) - 15] == INTR_RETURN_RESTORE
  {
    assert n != cur[c] ==> !In(n, User, cur, mode) && !In(n, Kernel, cur, mode);
  }

  lemma StartView(m: seq<Word>, cur: seq<nat>, mode: seq<Mode>, regs: seq<Regs>, regs': seq<Regs>, created: set<nat>,
      c: nat)
    requires c < 2 && Sized(m, cur, mode, regs, created) && mode[c] == Boot && Resumable(m, cur, mode, created)
    requires cur[c] in created
    requires |regs'| == 2 && regs'[1 - c] == regs[1 - c] && regs'[c] == Frame(m, cur[c])
    ensures Sized(m, cur, mode[c := User], regs', created) && Resumable(m, cur, mode[c := User], created)
    ensures ViewOf(m, cur, mode[c := User], regs', created)
      == Next(ViewOf(m, cur, mode, regs, created), Resume(c, cur[c]))
  {
    hide Frame, FrameAt;
    assert cur[c := cur[c]] == cur;
    SwitchMap(m, m, cur, mode, regs, regs', created, c, cur[c]);
  }

  lemma SwitchMap(m: seq<Word>, m': seq<Word>, cur: seq<nat>, mode: seq<Mode>, regs: seq<Regs>, regs': seq<Regs>,
                  created: set<nat>, c: nat, n: nat)
    requires c < 2 && Sized(m, cur, mode, regs, created) && mode[c] != User && n in created && n != cur[1 - c]
    requires |m'| == |m| && forall t :: t in created ==> Frame(m', t) == Frame(m, t)
    requires |regs'| == 2 && regs'[1 - c] == regs[1 - c] && regs'[c] == Frame(m', n)
    ensures Sized(m', cur[c := n], mode[c := User], regs', created)
    ensures ViewOf(m', cur[c := n], mode[c := User], regs', created)
         == Next(ViewOf(m, cur, mode, regs, created), Resume(c, n))
  {
    hide Frame, FrameAt;
    var v := ViewOf(m', cur[c := n], mode[c := User], regs', created);
    var w := Next(ViewOf(m, cur, mode, regs, created), Resume(c, n));
    assert v.user == w.user && v.regs == w.regs;
    forall t ensures t in v.saved <==> t in w.saved {
      if t in created {
        assert In(t, User, cur[c := n], mode[c := User]) <==> t == n || In(t, User, cur, mode);
      }
    }
    assert v.saved == w.saved;
  }

  /** A change confined to the frame and the return address of a task that is not in user mode. */
  lemma SlotView(m: seq<Word>, m': seq<Word>, cur: seq<nat>, mode: seq<Mode>, regs: seq<Regs>, created: set<nat>,
      t: nat, v: Word)
    requires Sized(m, cur, mode, regs, created) && Resumable(m, cur, mode, created) && t in created
    requires m' == m[Top(t) - 6 := v]
    ensures Resumable(m', cur, mode, created)
    ensures ViewOf(m', cur, mode, regs, created) == Next(ViewOf(m, cur, mode, regs, created), SetEax(t, v))
  {
    assert Frame(m', t) == Frame(m, t).(eax := v);
    StackIsPrivate(m, m', t, created);
    SlotViewMap(m, m', cur, mode, regs, created, t, v);
  }

  lemma SlotViewMap(m: seq<Word>, m': seq<Word>, cur: seq<nat>, mode: seq<Mode>, regs: seq<Regs>, created: set<nat>,
      t: nat, v: Word)
    requires Sized(m, cur, mode, regs, created) && t in created && |m'| == |m|
    requires Frame(m', t) == Frame(m, t).(eax := v)
    requires forall u :: u in created && u != t ==> Frame(m', u) == Frame(m, u)
    ensures ViewOf(m', cur, mode, regs, created) == Next(ViewOf(m, cur, mode, regs, created), SetEax(t, v))
  {
    hide Frame, FrameAt;
    var x, w := ViewOf(m', cur, mode, regs, created), Next(ViewOf(m, cur, mode, regs, created), SetEax(t, v));
    assert x.saved == w.saved;
  }

  lemma ScribbleView(m: seq<Word>, m': seq<Word>, cur: seq<nat>, mode: seq<Mode>, regs: seq<Regs>, created: set<nat>,
      c: nat)
    requires c < 2 && Sized(m, cur, mode, regs, created) && Resumable(m, cur, mode, created) && mode[c] == Kernel
    requires Only(m, m', Top(cur[c]) - STACK_WORDS, Top(cur[c]) - 14)
    ensures Resumable(m', cur, mode, created)
    ensures ViewOf(m', cur, mode, regs, created) == ViewOf(m, cur, mode, regs, created)
  {
    hide Frame, FrameAt;
    StackIsPrivate(m, m', cur[c], created);
    FrameElsewhere(m, m', Top(cur[c]) - STACK_WORDS, Top(cur[c]) - 14, cur[c]);
    var v, w := ViewOf(m', cur, mode, regs, created), ViewOf(m, cur, mode, regs, created);
    assert v.saved == w.saved;
  }

  lemma CreateView(m: seq<Word>, m': seq<Word>, cur: seq<nat>, mode: seq<Mode>, regs: seq<Regs>, created: set<nat>,
      t: nat)
    requires Sized(m, cur, mode, regs, created) && Resumable(m, cur, mode, created) && IsTask(t)
    requires !In(t, User, cur, mode) && !In(t, Kernel, cur, mode)
    requires Only(m, m', Top(t) - STACK_WORDS, Top(t)) && m'[Top(t) - 15] == INTR_RETURN_RESTORE
    ensures Sized(m', cur, mode, regs, created + {t}) && Resumable(m', cur, mode, created + {t})
    ensures ViewOf(m', cur, mode, regs, created + {t})
      == Next(ViewOf(m, cur, mode, regs, created), Create(t, Frame(m', t)))
  {
    hide Frame, FrameAt;
    StackIsPrivate(m, m', t, created);
    var v := ViewOf(m', cur, mode, regs, created + {t});
    var w := Next(ViewOf(m, cur, mode, regs, created), Create(t, Frame(m', t)));
    assert v.saved == w.saved;
  }

  // ----- Runs -----

  ghost predicate IsRun(ks: seq<Contexts>, es: seq<Event>) {
    && |ks| == |es| + 1 && Consistent(ks[0])
    && forall i :: 0 <= i < |es| ==> Consistent(ks[i]) && Allowed(ks[i], es[i]) && ks[i + 1] == Next(ks[i], es[i])
  }

  lemma NextConsistent(k: Contexts, e: Event)
    requires Consistent(k) && Allowed(k, e)
    ensures Consistent(Next(k, e))
  {}

  /** The value in the eax slot of task t after the events, when it was v before. */
  function LastEax(es: seq<Event>, t: nat, v: Word): Word {
    if es == [] then v
    else match es[|es| - 1]
      case SetEax(u, w) => if u == t then w else LastEax(es[..|es| - 1], t, v)
      case _ => LastEax(es[..|es| - 1], t, v)
  }

  /** Event i suspends task t with registers r: it enters the kernel, or gets its first frame. */
  ghost predicate Suspends(k: Contexts, e: Event, t: nat, r: Regs)
    requires Consistent(k) && Allowed(k, e)
  {
    match e
    case Enter(c) => k.cur[c] == t && k.regs[c] == r
    case Create(u, q) => u == t && q == r
    case _ => false
  }

  /** Events that start or end a suspension of task t. */
  predicate Touches(e: Event, t: nat) {
    match e
    case Resume(c, u) => u == t
    case Create(u, r) => u == t
    case _ => false
  }

  /** The value in the eax slot of task t after one event. */
  function EaxAfter(e: Event, t: nat, v: Word): Word {
    if e.SetEax? && e.t == t then e.v else v
  }

  lemma LastEaxNext(es: seq<Event>, i: nat, j: nat, t: nat, v: Word)
    requires i < j <= |es|
    ensures LastEax(es[i..j], t, v) == EaxAfter(es[j - 1], t, LastEax(es[i..j - 1], t, v))
  {
    assert es[i..j][..j - i - 1] == es[i..j - 1];
  }

  lemma StepWhileSuspended(k: Contexts, e: Event, t: nat)
    requires Consistent(k) && Allowed(k, e) && t in k.saved && !Touches(e, t)
    ensures t in Next(k, e).saved && Next(k, e).saved[t] == k.saved[t].(eax := EaxAfter(e, t, k.saved[t].eax))
  {}

  lemma SuspendStarts(k: Contexts, e: Event, t: nat, r: Regs)
    requires Consistent(k) && Allowed(k, e) && Suspends(k, e, t, r)
    ensures t in Next(k, e).saved && Next(k, e).saved[t] == r
  {}

  lemma {:induction false} SuspendedKept(ks: seq<Contexts>, es: seq<Event>, i: nat, j: nat, t: nat, r: Regs)
    requires IsRun(ks, es) && i < j <= |es| && Suspends(ks[i], es[i], t, r)
    requires forall n :: i < n < j ==> !Touches(es[n], t)
    ensures t in ks[j].saved && ks[j].saved[t] == r.(eax := LastEax(es[i + 1..j], t, r.eax))
    decreases j
  {
    hide Consistent, Allowed, Suspends, Touches, LastEax, EaxAfter;
    if j == i + 1 {
      SuspendStarts(ks[i], es[i], t, r);
      NothingStored(es, i + 1, t, r.eax);
    } else {
      SuspendedKept(ks, es, i, j - 1, t, r);
      StepWhileSuspended(ks[j - 1], es[j - 1], t);
      LastEaxNext(es, i + 1, j, t, r.eax);
    }
  }

  lemma NothingStored(es: seq<Event>, i: nat, t: nat, v: Word)
    requires i <= |es|
    ensures LastEax(es[i..i], t, v) == v
  {}

  /** A task that is resumed has exactly the registers of its last kernel entry, or of its first frame, except eax,
      which is the last value stored for it; whatever the CPUs and all other tasks did in between. */
  lemma SwitchIsTransparent(ks: seq<Contexts>, es: seq<Event>, i: nat, j: nat, c: nat, t: nat, r: Regs)
    requires IsRun(ks, es) && i < j < |es| && Suspends(ks[i], es[i], t, r) && es[j] == Resume(c, t)
    requires forall n :: i < n < j ==> !Touches(es[n], t)
    ensures ks[j + 1].cur[c] == t && ks[j + 1].user[c]
    ensures ks[j + 1].regs[c] == r.(eax := LastEax(es[i + 1..j], t, r.eax))
  {
    SuspendedKept(ks, es, i, j, t, r);
  }

  // ----- The machine's own run -----

  /** ks and es are a run that ends in k. */
  ghost predicate RunsTo(ks: seq<Contexts>, es: seq<Event>, k: Contexts) {
    IsRun(ks, es) && Consistent(k) && ks[|es|] == k
  }

  lemma RunGoesOn(ks: seq<Contexts>, es: seq<Event>, k: Contexts, e: Event)
    requires RunsTo(ks, es, k) && Allowed(k, e)
    ensures RunsTo(ks + [Next(k, e)], es + [e], Next(k, e))
  {
    NextConsistent(k, e);
    var ks', es' := ks + [Next(k, e)], es + [e];
    forall i | 0 <= i < |es'|
      ensures Consistent(ks'[i]) && Allowed(ks'[i], es'[i]) && ks'[i + 1] == Next(ks'[i], es'[i]) {
      if i < |es| { assert ks'[i] == ks[i] && es'[i] == es[i]; }
    }
  }

  lemma ViewConsistent(m: seq<Word>, cur: seq<nat>, mode: seq<Mode>, regs: seq<Regs>, created: set<nat>)
    requires Sized(m, cur, mode, regs, created)
    ensures var k := ViewOf(m, cur, mode, regs, created);
            && Consistent(k) && k.cur == cur && (forall c :: 0 <= c < 2 ==> (k.user[c] <==> mode[c] == User))
            && (forall t :: t in k.saved <==> t in created && !In(t, User, cur, mode))
  {
    hide Frame, FrameAt;
  }

  lemma MayEnter(m: seq<Word>, cur: seq<nat>, mode: seq<Mode>, regs: seq<Regs>, created: set<nat>, c: nat)
    requires Sized(m, cur, mode, regs, created) && c < 2 && mode[c] == User
    ensures var k := ViewOf(m, cur, mode, regs, created); Consistent(k) && Allowed(k, Enter(c))
  {
    ViewConsistent(m, cur, mode, regs, created);
  }

  lemma MayResume(m: seq<Word>, cur: seq<nat>, mode: seq<Mode>, regs: seq<Regs>, created: set<nat>, c: nat, n: nat)
    requires Sized(m, cur, mode, regs, created) && c < 2 && mode[c] != User && n in created && n != cur[1 - c]
    ensures var k := ViewOf(m, cur, mode, regs, created); Consistent(k) && Allowed(k, Resume(c, n))
  {
    ViewConsistent(m, cur, mode, regs, created);
  }

  /** "--uesp" on a 32-bit pointer. */
  function Minus4(p: Word): Word { (p - 4) % 0x1_0000_0000 }

  /** The top of a user stack, aligned to a word. */
  function UserTop(stk: Word, stksz: Word): (r: Word)
    ensures r % 4 == 0
  {
    (stk + stksz) % 0x1_0000_0000 / 4 * 4
  }

  /** The registers a new task starts with: entry point, cleared registers, and a user stack that holds the address of
      ext_tsk with the task argument above it. */
  function FirstFrame(stk: Word, stksz: Word, task: Word): Regs {
    Regs(SEL_U32_D + 3, SEL_U32_D + 3, 0, 0, 0, 0, 0, 0, 0, task, SEL_U32_C + 3, INIT_EFLAGS,
         Minus4(Minus4(UserTop(stk, stksz))), SEL_U32_S + 3)
  }

  /** A new task begins in ring 3 at its entry point with interrupts on and cleared registers, its stack pointer aligned
      and 8 bytes below the aligned end of its stack. */
  lemma FirstFrameStarts(stk: Word, stksz: Word, task: Word)
    ensures var f := FirstFrame(stk, stksz, task);
            && f.eip == task && f.eflags / 0x200 % 2 == 1
            && f.cs % 4 == 3 && f.cs / 4 == SEL_U32_C / 4 && f.ss % 4 == 3 && f.ss / 4 == SEL_U32_S / 4
            && f.ds == f.es && f.ds % 4 == 3 && f.ds / 4 == SEL_U32_D / 4
            && f.edi == f.esi == f.ebp == f.ebx == f.edx == f.ecx == f.eax == 0
            && f.esp % 4 == 0
            && var end := (stk + stksz) % 0x1_0000_0000;
               end - 4 < (f.esp + 8) % 0x1_0000_0000 <= end
  {
    hide UserTop, Minus4;
    TopAligned((stk + stksz) % 0x1_0000_0000);
    UserTopIs(stk, stksz);
    TwoWordsBelow(UserTop(stk, stksz));
  }

  lemma UserTopIs(stk: Word, stksz: Word)
    ensures UserTop(stk, stksz) == (stk + stksz) % 0x1_0000_0000 / 4 * 4
  {}

  lemma TopAligned(end: Word)
    ensures end - 4 < end / 4 * 4 <= end
  {}

  lemma TwoWordsBelow(p: Word)
    requires p % 4 == 0
    ensures Minus4(Minus4(p)) % 4 == 0 && (Minus4(Minus4(p)) + 8) % 0x1_0000_0000 == p
  {}

  /** The user stack looks as if ext_tsk had just called the task's function with argument arg. */
  predicate AsCalled(umem: map<Word, Word>, esp: Word, arg: Word) {
    var above := (esp + 4) % 0x1_0000_0000;
    esp in umem && umem[esp] == EXT_TSK && above in umem && umem[above] == arg
  }

  lemma ArgumentsInPlace(umem: map<Word, Word>, stk: Word, stksz: Word, task: Word, arg: Word)
    ensures var f := FirstFrame(stk, stksz, task);
            AsCalled(umem[Minus4(UserTop(stk, stksz)) := arg][f.esp := EXT_TSK], f.esp, arg)
  {
    hide UserTop, Minus4;
    WordBelow(Minus4(UserTop(stk, stksz)));
  }

  lemma WordBelow(p: Word)
    ensures (Minus4(p) + 4) % 0x1_0000_0000 == p && Minus4(p) != p
  {}

  class Machine {
    const kstk: array<Word>
    var kernEsp: seq<nat>
    var kernTop: seq<nat>
    var cur: seq<nat>
    var mode: seq<Mode>
    var regs: seq<Regs>
    var esp: seq<nat>
    var esp0: seq<nat>
    var knest: seq<nat>
    var umem: map<Word, Word>
    ghost var created: set<nat>

    /** What has happened so far, as the tasks see it. */
    ghost var states: seq<Contexts>
    ghost var events: seq<Event>

    /** Every created task has kern_esp 60 bytes below the top of its stack, and the esp0 of each CPU is the stack top
        of its current task. */
    ghost predicate Pointers()
      reads `kernEsp, `kernTop, `cur, `mode, `esp, `esp0, `knest, `created
    {
      && |kernEsp| == MAX_TSKID && |kernTop| == MAX_TSKID && |cur| == 2 && |mode| == 2
      && |esp| == 2 && |esp0| == 2 && |knest| == 2
      && (forall t :: 0 <= t < MAX_TSKID ==> kernTop[t] == Top(t))
      && (forall t :: t in created ==> IsTask(t) && kernEsp[t] == Top(t) - 15)
      && (forall c :: 0 <= c < 2 ==> esp0[c] == Top(cur[c]))
      && (forall c :: 0 <= c < 2 ==> knest[c] == if mode[c] == Kernel then 1 else 0)
      && (forall c :: 0 <= c < 2 && mode[c] == Kernel ==> esp[c] == Top(cur[c]) - 14)
    }

    /** The state of the machine, apart from its history, is in order. */
    ghost predicate InOrder()
      reads `kernEsp, `kernTop, `cur, `mode, `regs, `esp, `esp0, `knest, `created, kstk
    {
      Sized(kstk[..], cur, mode, regs, created) && Resumable(kstk[..], cur, mode, created) && Pointers()
    }

    ghost function View(): Contexts
      requires InOrder()
      reads `kernEsp, `kernTop, `cur, `mode, `regs, `esp, `esp0, `knest, `created, kstk
    {
      ViewOf(kstk[..], cur, mode, regs, created)
    }

    /** The history is a run that ends in the present view. */
    ghost predicate Valid()
      reads this, kstk
    {
      InOrder() && RunsTo(states, events, View())
    }

    /** Event e has just taken the view from was to what it is now. */
    ghost method Record(was: Contexts, e: Event)
      requires InOrder() && RunsTo(states, events, was) && Consistent(was) && Allowed(was, e) && View() == Next(was, e)
      modifies `states, `events
      ensures Valid() && Happened(was, old(states), old(events), e)
    {
      hide Allowed, Next, InOrder, ViewOf, IsRun;
      RunGoesOn(states, events, was, e);
      states, events := states + [View()], events + [e];
    }

    /** proc_init's table loop and the stack tops tss_init stores for tasks 1 and 2. */
    constructor ()
      ensures Valid() && created == {} && cur == [1, 2] && mode == [Boot, Boot] && View().saved == map[]
    {
      kstk := new Word[MAX_TSKID * STACK_WORDS];
      kernEsp := seq(MAX_TSKID, i => 0);
      kernTop := seq(MAX_TSKID, i requires 0 <= i => Top(i));
      cur := [1, 2];
      mode := [Boot, Boot];
      regs := [NoRegs, NoRegs];
      esp := [0, 0];
      esp0 := [Top(1), Top(2)];
      knest := [0, 0];
      umem := map[];
      created := {};
      states, events := [], [];
      new;
      ViewConsistent(kstk[..], cur, mode, regs, created);
      states := [View()];
    }

    /** The last thing that happened since the state before was was e. */
    ghost predicate Happened(was: Contexts, wasStates: seq<Contexts>, wasEvents: seq<Event>, e: Event)
      requires InOrder()
      reads this, kstk
    {
      && Consistent(was) && Allowed(was, e) && View() == Next(was, e)
      && events == wasEvents + [e] && states == wasStates + [View()]
    }

    /** Whatever happened in between: a task that has just been resumed has the registers of its last kernel entry, or
        of its first frame, except eax, which is the last value stored for it. */
    lemma ResumedIntact(i: nat, c: nat, t: nat, r: Regs)
      requires Valid() && i + 1 < |events| && events[|events| - 1] == Resume(c, t)
      requires Consistent(states[i]) && Allowed(states[i], events[i]) && Suspends(states[i], events[i], t, r)
      requires forall n :: i < n < |events| - 1 ==> !Touches(events[n], t)
      ensures c < 2 && mode[c] == User && cur[c] == t
      ensures regs[c] == r.(eax := LastEax(events[i + 1..|events| - 1], t, r.eax))
    {
      hide Frame, FrameAt, Resumable, Pointers, LastEax;
      var j := |events| - 1;
      assert Allowed(states[j], events[j]) && states[j + 1] == Next(states[j], events[j]);
      SwitchIsTransparent(states, events, i, j, c, t, r);
    }

    method Push(sp: nat, v: Word) returns (sp': nat)
      requires 0 < sp <= kstk.Length
      modifies kstk
      ensures sp' == sp - 1 && kstk[sp'] == v
      ensures forall i :: 0 <= i < kstk.Length && i != sp' ==> kstk[i] == old(kstk[i])
    {
      sp' := sp - 1;
      kstk[sp'] := v;
    }

    /** What the CPU pushes on a switch from ring 3. */
    method PushInterruptFrame(sp: nat, r: Regs) returns (sp': nat)
      requires 5 <= sp <= kstk.Length
      modifies kstk
      ensures sp' == sp - 5 && Only(old(kstk[..]), kstk[..], sp', sp)
      ensures kstk[sp'] == r.eip && kstk[sp' + 1] == r.cs && kstk[sp' + 2] == r.eflags && kstk[sp' + 3] == r.esp
      ensures kstk[sp' + 4] == r.ss
    {
      sp' := Push(sp, r.ss);
      sp' := Push(sp', r.esp);
      sp' := Push(sp', r.eflags);
      sp' := Push(sp', r.cs);
      sp' := Push(sp', r.eip);
    }

    method PushGeneral(sp: nat, r: Regs) returns (sp': nat)
      requires 5 <= sp <= kstk.Length
      modifies kstk
      ensures sp' == sp - 5 && Only(old(kstk[..]), kstk[..], sp', sp)
      ensures kstk[sp'] == r.ebp && kstk[sp' + 1] == r.ebx && kstk[sp' + 2] == r.edx && kstk[sp' + 3] == r.ecx
      ensures kstk[sp' + 4] == r.eax
    {
      sp' := Push(sp, r.eax);
      sp' := Push(sp', r.ecx);
      sp' := Push(sp', r.edx);
      sp' := Push(sp', r.ebx);
      sp' := Push(sp', r.ebp);
    }

    method PushIndexAndSegments(sp: nat, r: Regs) returns (sp': nat)
      requires 4 <= sp <= kstk.Length
      modifies kstk
      ensures sp' == sp - 4 && Only(old(kstk[..]), kstk[..], sp', sp)
      ensures kstk[sp'] == r.es && kstk[sp' + 1] == r.ds && kstk[sp' + 2] == r.edi && kstk[sp' + 3] == r.esi
    {
      sp' := Push(sp, r.esi);
      sp' := Push(sp', r.edi);
      sp' := Push(sp', r.ds);
      sp' := Push(sp', r.es);
    }

    /** The hardware frame followed by the pushes of SAVE_ALL. */
    method PushFrame(sp: nat, r: Regs) returns (sp': nat)
      requires 14 <= sp <= kstk.Length
      modifies kstk
      ensures sp' == sp - 14 && Only(old(kstk[..]), kstk[..], sp', sp) && FrameAt(kstk[..], sp') == r
    {
      sp' := PushInterruptFrame(sp, r);
      sp' := PushGeneral(sp', r);
      sp' := PushIndexAndSegments(sp', r);
    }

    method Pop(sp: nat) returns (sp': nat, v: Word)
      requires sp < kstk.Length
      ensures sp' == sp + 1 && v == kstk[sp]
    {
      sp', v := sp + 1, kstk[sp];
    }

    /** RESTORE_ALL and iret. */
    method PopFrame(sp: nat) returns (r: Regs)
      requires sp + 14 <= kstk.Length
      ensures r == FrameAt(kstk[..], sp)
    {
      var p, es, ds, edi, esi, ebp, ebx, edx, ecx, eax, eip, cs, eflags, uesp, ss;
      p, es := Pop(sp);
      p, ds := Pop(p);
      p, edi := Pop(p);
      p, esi := Pop(p);
      p, ebp := Pop(p);
      p, ebx := Pop(p);
      p, edx := Pop(p);
      p, ecx := Pop(p);
      p, eax := Pop(p);
      p, eip := Pop(p);
      p, cs := Pop(p);
      p, eflags := Pop(p);
      p, uesp := Pop(p);
      p, ss := Pop(p);
      r := Regs(es, ds, edi, esi, ebp, ebx, edx, ecx, eax, eip, cs, eflags, uesp, ss);
    }

    /** Words written below sp by calls the kernel makes; sp itself comes back. */
    method Scribble(sp: nat, junk: seq<Word>)
      requires |junk| <= sp <= kstk.Length
      modifies kstk
      ensures Only(old(kstk[..]), kstk[..], sp - |junk|, sp)
    {
      var i := 0;
      while i < |junk|
        invariant i <= |junk| && Only(old(kstk[..]), kstk[..], sp - i, sp)
      {
        kstk[sp - 1 - i] := junk[i];
        i := i + 1;
      }
    }

    /** User code of the current task changes registers. */
    method UserRun(c: nat, r: Regs)
      requires Valid() && c < 2 && mode[c] == User
      modifies `states, `events, `regs
      ensures Valid() && Happened(old(View()), old(states), old(events), Run(c, r))
    {
      hide RunsTo;
      ViewConsistent(kstk[..], cur, mode, regs, created);
      ghost var was, e := View(), Run(c, r);
      assert Allowed(was, e);
      regs := regs[c := r];
      Record(was, e);
    }

    /** The CPU's own pushes, SAVE_ALL, and the call of intr_enter from address from. */
    method SaveFrame(c: nat, from: Word)
      requires InOrder() && c < 2 && mode[c] == User
      modifies `esp, kstk
      ensures esp == old(esp)[c := Top(cur[c]) - 14]
      ensures Only(old(kstk[..]), kstk[..], Top(cur[c]) - STACK_WORDS, Top(cur[c]))
      ensures IsTask(cur[c]) && |kstk[..]| == MAX_TSKID * STACK_WORDS && Frame(kstk[..], cur[c]) == regs[c]
    {
      hide FrameAt, Resumable;
      var sp := PushFrame(esp0[c], regs[c]);
      ghost var m := kstk[..];
      assert Frame(m, cur[c]) == regs[c];
      esp := esp[c := sp];
      Scribble(sp, [from]);
      FrameElsewhere(m, kstk[..], sp - 1, sp, cur[c]);
    }

    /** SAVE_ALL's segment loads and intr_enter, behind the pushes. */
    method EnterKernel(c: nat, from: Word)
      requires InOrder() && c < 2 && mode[c] == User
      modifies `esp, `regs, `mode, `knest, kstk
      ensures InOrder() && View() == Next(old(View()), Enter(c)) && mode == old(mode)[c := Kernel]
    {
      hide Frame, FrameAt, ViewOf, Next, Resumable;
      ghost var m, r := kstk[..], regs;
      SaveFrame(c, from);
      regs := regs[c := regs[c].(ds := SEL_K32_D, es := SEL_K32_D, eax := c)];
      knest := knest[c := knest[c] + 1];
      EnterView(m, kstk[..], cur, mode, r, regs, created, c);
      mode := mode[c := Kernel];
    }

    /** An interrupt or system call from user mode, up to the end of intr_enter. */
    method IntrEnter(c: nat, from: Word)
      requires Valid() && c < 2 && mode[c] == User
      modifies `states, `events, `esp, `regs, `mode, `knest, kstk
      ensures Valid() && Happened(old(View()), old(states), old(events), Enter(c)) && mode == old(mode)[c := Kernel]
    {
      hide Sized, Resumable, Pointers, ViewOf, Next, RunsTo, Consistent, Allowed;
      ghost var was := View();
      MayEnter(kstk[..], cur, mode, regs, created, c);
      EnterKernel(c, from);
      Record(was, Enter(c));
    }

    /** Whatever the handler pushes and pops below the frame it was entered with. */
    method HandlerCode(c: nat, junk: seq<Word>)
      requires Valid() && c < 2 && mode[c] == Kernel && |junk| <= STACK_WORDS - 14
      modifies kstk
      ensures Valid() && View() == old(View())
    {
      hide FrameAt, Frame, ViewOf, Resumable, RunsTo;
      ghost var m := kstk[..];
      Scribble(esp[c], junk);
      ScribbleView(m, kstk[..], cur, mode, regs, created, c);
    }

    /** The last statement of c_intr_syscall: the return value goes to the eax slot of the frame it was passed. */
    method StoreResult(c: nat, v: Word)
      requires Valid() && c < 2 && mode[c] == Kernel
      modifies `states, `events, kstk
      ensures Valid() && Happened(old(View()), old(states), old(events), SetEax(cur[c], v))
    {
      hide FrameAt, Frame, ViewOf, Next, Resumable, RunsTo;
      ViewConsistent(kstk[..], cur, mode, regs, created);
      ghost var was, e := View(), SetEax(cur[c], v);
      assert Allowed(was, e);
      ghost var m := kstk[..];
      kstk[esp[c] + 8] := v;
      assert kstk[..] == m[Top(cur[c]) - 6 := v];
      SlotView(m, kstk[..], cur, mode, regs, created, cur[c], v);
      Record(was, e);
    }

    /** proc_set_return_value, through the stack pointer saved for the task. */
    method SetReturnValue(t: nat, v: Word)
      requires Valid() && t in created
      modifies `states, `events, kstk
      ensures Valid() && Happened(old(View()), old(states), old(events), SetEax(t, v))
    {
      hide FrameAt, Frame, ViewOf, Next, Resumable, RunsTo;
      ViewConsistent(kstk[..], cur, mode, regs, created);
      ghost var was, e := View(), SetEax(t, v);
      assert Allowed(was, e);
      ghost var m := kstk[..];
      kstk[kernEsp[t] + 1 + 8] := v;
      assert kstk[..] == m[Top(t) - 6 := v];
      SlotView(m, kstk[..], cur, mode, regs, created, t, v);
      Record(was, e);
    }

    /** "ret" through the saved stack of task t, then RESTORE_ALL and iret. */
    method ReturnTo(c: nat, t: nat)
      requires kstk.Length == MAX_TSKID * STACK_WORDS && |kernEsp| == MAX_TSKID && |regs| == 2 && |esp| == 2 && c < 2
      requires IsTask(t) && kernEsp[t] == Top(t) - 15 && kstk[Top(t) - 15] == INTR_RETURN_RESTORE
      modifies `regs, `esp
      ensures regs == old(regs)[c := Frame(kstk[..], t)] && |esp| == 2 && esp[1 - c] == old(esp)[1 - c]
    {
      hide FrameAt;
      var sp, ret := Pop(kernEsp[t]);
      assert ret == INTR_RETURN_RESTORE;
      var f := PopFrame(sp);
      regs := regs[c := f];
      esp := esp[c := sp + 14];
    }

    method FirstReturn(c: nat)
      requires InOrder() && c < 2 && mode[c] == Boot && cur[c] in created
      modifies `mode, `regs, `esp
      ensures InOrder() && View() == Next(old(View()), Resume(c, cur[c])) && mode == old(mode)[c := User]
    {
      hide Frame, FrameAt, ViewOf, Next;
      ghost var r := regs;
      ReturnTo(c, cur[c]);
      StartView(kstk[..], cur, mode, r, regs, created, c);
      mode := mode[c := User];
    }

    /** start_first_task and start_second_task. */
    method StartTask(c: nat)
      requires Valid() && c < 2 && mode[c] == Boot && cur[c] in created
      modifies `states, `events, `mode, `regs, `esp
      ensures Valid() && Happened(old(View()), old(states), old(events), Resume(c, cur[c]))
        && mode == old(mode)[c := User]
    {
      hide Resumable, Pointers, ViewOf, Next, RunsTo, Consistent, Allowed;
      ghost var was := View();
      MayResume(kstk[..], cur, mode, regs, created, c, cur[c]);
      FirstReturn(c);
      Record(was, Resume(c, cur[c]));
    }

    /** intr_leave up to its call of the scheduler: the return address is pushed and the stack pointer saved; then the
        scheduler pushes what it likes. */
    method SaveStack(c: nat, junk: seq<Word>)
      requires InOrder() && c < 2 && mode[c] == Kernel && |junk| <= STACK_WORDS - 15
      modifies `kernEsp, `knest, kstk
      ensures Only(old(kstk[..]), kstk[..], Top(cur[c]) - STACK_WORDS, Top(cur[c]) - 14)
      ensures kstk[Top(cur[c]) - 15] == INTR_RETURN_RESTORE
      ensures kernEsp == old(kernEsp) && knest == old(knest)[c := 0]
    {
      hide FrameAt, Frame, ViewOf, Next, Resumable;
      var sp := Push(esp[c], INTR_RETURN_RESTORE);
      knest := knest[c := knest[c] - 1];
      kernEsp := kernEsp[cur[c] := sp];
      Scribble(sp, junk);
    }

    /** The stack of task n becomes that of CPU c, with esp0 at its top, once the stack of the task that leaves is
        saved. */
    method SwitchStack(c: nat, n: nat, junk: seq<Word>, tssCall: seq<Word>)
      requires InOrder() && c < 2 && mode[c] == Kernel && n in created && n != cur[1 - c]
      requires |junk| <= STACK_WORDS - 15 && |tssCall| <= STACK_WORDS - 15
      modifies `kernEsp, `esp0, `knest, kstk
      ensures |kstk[..]| == |old(kstk[..])|
      ensures forall u :: u in created ==> IsTask(u) && Frame(kstk[..], u) == old(Frame(kstk[..], u))
      ensures forall u :: u in created && u != cur[c] ==> IsTask(u) && kstk[Top(u) - 15] == old(kstk[Top(u) - 15])
      ensures kstk[Top(cur[c]) - 15] == INTR_RETURN_RESTORE && kstk[Top(n) - 15] == INTR_RETURN_RESTORE
      ensures kernEsp == old(kernEsp) && knest == old(knest)[c := 0] && esp0 == old(esp0)[c := Top(n)]
    {
      hide Frame, FrameAt, ViewOf, Next;
      ghost var m := kstk[..];
      SaveStack(c, junk);
      ghost var m1 := kstk[..];
      Scribble(kernEsp[n], tssCall);
      esp0 := esp0[c := kernTop[n]];
      TwoStacks(m, m1, kstk[..], cur[c], n, created);
      StillResumable(m, kstk[..], cur, mode, created, c, n);
    }

    /** The stack switch and the return through the new stack. */
    method LeaveKernel(c: nat, n: nat, junk: seq<Word>, tssCall: seq<Word>)
      requires InOrder() && c < 2 && mode[c] == Kernel && n in created && n != cur[1 - c]
      requires |junk| <= STACK_WORDS - 15 && |tssCall| <= STACK_WORDS - 15
      modifies `kernEsp, `cur, `mode, `regs, `esp, `esp0, `knest, kstk
      ensures InOrder() && View() == Next(old(View()), Resume(c, n))
      ensures cur == old(cur)[c := n] && mode == old(mode)[c := User]
    {
      hide Frame, FrameAt, ViewOf, Next, Resumable;
      ghost var m, r := kstk[..], regs;
      SwitchStack(c, n, junk, tssCall);
      ReturnTo(c, n);
      LeaveView(m, kstk[..], cur, mode, r, regs, created, c, n);
      cur := cur[c := n];
      mode := mode[c := User];
    }

    /** intr_return with intr_leave, when the scheduler picks n (possibly the task that entered): the stack of n is
        loaded, tss_update_esp0 is called on it, and the return goes through that stack. */
    method IntrLeave(c: nat, n: nat, junk: seq<Word>, tssCall: seq<Word>)
      requires Valid() && c < 2 && mode[c] == Kernel && n in created && n != cur[1 - c]
      requires |junk| <= STACK_WORDS - 15 && |tssCall| <= STACK_WORDS - 15
      modifies `states, `events, `kernEsp, `cur, `mode, `regs, `esp, `esp0, `knest, kstk
      ensures Valid() && Happened(old(View()), old(states), old(events), Resume(c, n))
      ensures cur == old(cur)[c := n] && mode == old(mode)[c := User]
    {
      hide Sized, Resumable, Pointers, ViewOf, Next, RunsTo, Consistent, Allowed;
      ghost var was := View();
      MayResume(kstk[..], cur, mode, regs, created, c, n);
      LeaveKernel(c, n, junk, tssCall);
      Record(was, Resume(c, n));
    }

    /** proc_set_tsk_arg: the argument and the return address of the task function go to its user stack. */
    method SetTskArg(t: nat, arg: Word)
      requires IsTask(t) && kstk.Length == MAX_TSKID * STACK_WORDS && |kernTop| == MAX_TSKID && kernTop[t] == Top(t)
      modifies `umem, kstk
      ensures var u := old(kstk[Top(t) - 2]);
              && kstk[..] == old(kstk[..])[Top(t) - 2 := Minus4(Minus4(u))]
              && umem == old(umem)[Minus4(u) := arg][Minus4(Minus4(u)) := EXT_TSK]
    {
      var slot := kernTop[t] - 2;
      var uesp := kstk[slot];
      uesp := Minus4(uesp);
      umem := umem[uesp := arg];
      uesp := Minus4(uesp);
      umem := umem[uesp := EXT_TSK];
      kstk[slot] := uesp;
    }

    /** proc_create: a frame as an entry would have left it, under the return address of intr_leave. */
    method WriteFirstFrame(t: nat, stk: Word, stksz: Word, task: Word, exinf: Word)
      requires IsTask(t) && kstk.Length == MAX_TSKID * STACK_WORDS && |kernTop| == MAX_TSKID && |kernEsp| == MAX_TSKID
      modifies `kernEsp, `kernTop, `umem, kstk
      ensures kernTop == old(kernTop)[t := Top(t)] && kernEsp == old(kernEsp)[t := Top(t) - 15]
      ensures Only(old(kstk[..]), kstk[..], Top(t) - STACK_WORDS, Top(t)) && kstk[Top(t) - 15] == INTR_RETURN_RESTORE
      ensures Frame(kstk[..], t) == FirstFrame(stk, stksz, task)
      ensures umem == old(umem)[Minus4(UserTop(stk, stksz)) := exinf][FirstFrame(stk, stksz, task).esp := EXT_TSK]
    {
      hide UserTop, Minus4;
      kernTop := kernTop[t := Top(t)];
      var first := Regs(SEL_U32_D + 3, SEL_U32_D + 3, 0, 0, 0, 0, 0, 0, 0, task, SEL_U32_C + 3, INIT_EFLAGS,
                        UserTop(stk, stksz), SEL_U32_S + 3);
      var sp := PushFrame(Top(t), first);
      sp := Push(sp, INTR_RETURN_RESTORE);
      kernEsp := kernEsp[t := sp];
      SetTskArg(t, exinf);
    }

    method ProcCreate(t: nat, stk: Word, stksz: Word, task: Word, exinf: Word)
      requires Valid() && IsTask(t) && !In(t, User, cur, mode) && !In(t, Kernel, cur, mode)
      modifies `states, `events, `kernEsp, `kernTop, `umem, `created, kstk
      ensures Valid() && created == old(created) + {t}
      ensures Happened(old(View()), old(states), old(events), Create(t, FirstFrame(stk, stksz, task)))
      ensures umem == old(umem)[Minus4(UserTop(stk, stksz)) := exinf][FirstFrame(stk, stksz, task).esp := EXT_TSK]
      ensures AsCalled(umem, FirstFrame(stk, stksz, task).esp, exinf)
    {
      hide FrameAt, Frame, FirstFrame, ViewOf, Next, Resumable, RunsTo, AsCalled;
      ArgumentsInPlace(umem, stk, stksz, task, exinf);
      ViewConsistent(kstk[..], cur, mode, regs, created);
      ghost var was, e := View(), Create(t, FirstFrame(stk, stksz, task));
      assert Allowed(was, e);
      ghost var m := kstk[..];
      WriteFirstFrame(t, stk, stksz, task, exinf);
      CreateView(m, kstk[..], cur, mode, regs, created, t);
      created := created + {t};
      Record(was, e);
    }
  }
}
