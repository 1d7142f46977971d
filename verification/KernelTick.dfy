/** Creation, the timer tick and the dispatcher keep the kernel's invariant. */
module KernelTick {
  import opened Links
  import opened Timeouts
  import opened KernelState
  import opened KernelInvariant
  import opened KernelSteps
  import opened KernelMutex

  // ----- Creation -----

  lemma UnlinkedTask(k: KState, t: nat)
    requires BaseInv(k) && IsTask(t) && k.tsk[t].stat == NON
    ensures !Queued(k.q, P, t) && !Queued(k.q, W, t) && !Queued(k.q, T, t)
    ensures t != k.cur[0] && t != k.cur[1] && t != IDLE0 && t != IDLE1
  {
    ActiveIsUnlinked(k, t);
    InactiveIsUnlinked(k, t);
  }

  lemma CreateReady(tsk: Tasks, q: Queues, cur: seq<nat>, t: nat, x: Tcb)
    requires QShape(q) && ReadyOk(tsk, q) && WaitOk(tsk, q) && IsTask(t)
    requires |cur| == 2 && IsTask(cur[0]) && IsTask(cur[1]) && CpuOk(tsk, cur)
    requires tsk[t].stat == NON && x.stat == DMT && t != cur[0] && t != cur[1]
    ensures ReadyOk(tsk[t := x], q) && WaitOk(tsk[t := x], q) && CpuOk(tsk[t := x], cur)
  {}

  lemma CreTskKeepsInv(k: KState, c: nat, t: nat, p: Pri)
    requires Inv(k) && t != SLOTS && c < 2
    ensures Inv(CreTsk(k, c, t, p).0)
  {
    hide LinksOk, MtxOk, SemOk, CpuOk, ReadyOk, WaitOk, WellFormed, AllIds, Owned, Queued, OwnsNone;
    if IsTask(t) && k.tsk[t].stat == NON {
      var r := CreTsk(k, c, t, p).0;
      UnlinkedTask(k, t);
      CreateReady(k.tsk, k.q, k.cur, t, r.tsk[t]);
      OwnedNone(k.mtx, t);
      ObjectsSameBut(k, t, r);
    }
  }

  lemma CreSemKeepsInv(k: KState, s: nat, atr: nat, cnt: nat, max: nat)
    requires Inv(k) && (1 <= s <= MAX_ID && !k.sem[s].act ==> cnt <= max < UINT_MOD - 1)
    ensures Inv(CreSem(k, s, atr, cnt, max).0)
  {
    hide LinksOk, MtxOk, OwnOk, CpuOk, ReadyOk, WaitOk, WellFormed, IdleOk, Sorted;
    var r := CreSem(k, s, atr, cnt, max).0;
    forall u: nat | 1 <= u <= MAX_ID ensures SemAt(r.tsk, r.q[SemQ(u)], r.sem[u]) {
      assert SemAt(k.tsk, k.q[SemQ(u)], k.sem[u]);
      if r.sem[u] != k.sem[u] { EmptySorted(k.tsk, k.q[SemQ(u)]); }
    }
  }

  lemma EmptySorted(tsk: Tasks, s: seq<nat>)
    requires Ids(s)
    ensures s == [] ==> Sorted(tsk, s)
  {}

  lemma CreMtxKeepsInv(k: KState, m: nat, atr: nat, ceil: nat)
    requires Inv(k) && m != SLOTS
    ensures Inv(CreMtx(k, m, atr, ceil).0)
  {
    hide LinksOk, SemOk, CpuOk, ReadyOk, WaitOk, WellFormed, IdleOk, Sorted, NoneAbove, Owned;
    if 1 <= m < SLOTS && !k.mtx[m].act {
      var r := CreMtx(k, m, atr, ceil).0;
      forall n: nat | 1 <= n < SLOTS ensures MtxAt(r.tsk, r.q[MtxQ(n)], r.mtx[n]) {
        assert MtxAt(k.tsk, k.q[MtxQ(n)], k.mtx[n]);
      }
      forall t: nat | IsTask(t) ensures OwnAt(r.tsk[t], Owned(r.mtx, t, SLOTS - 1)) {
        OwnedSet(k.mtx, m, r.mtx[m], t, SLOTS - 1);
        assert OwnAt(k.tsk[t], Owned(k.mtx, t, SLOTS - 1));
      }
    }
  }

  // ----- Expiry -----

  lemma TailIsWithout(s: seq<nat>)
    requires NoDup(s) && s != []
    ensures Without(s, s[0]) == s[1..]
  {
    assert s[0] in s;
    assert DropAt(s, 0) == s[1..];
  }

  lemma ExpireIsRelease(k: KState)
    requires Shape(k) && LinksOk(k.q) && WaitOk(k.tsk, k.q) && k.q[Tmo] != []
    ensures var t := k.q[Tmo][0];
            var r := Expire(k);
            && IsTask(t) && k.tsk[t].stat == WAI
            && ReleaseEffect(k, t, r)
            && r.tsk[t] == k.tsk[t].(stat := RDY, eax := E_TMOUT)
            && r.delta == k.delta && r.q[Tmo] == k.q[Tmo][1..]
  {
    hide NoDup, InsertAt, Without, AllIds, SchedIns, WaitOk;
    HeadIsTask(k, Tmo);
    QueueHead(k, Tmo);
    TailIsWithout(k.q[Tmo]);
    var t := k.q[Tmo][0];
    var k1 := k.(q := k.q[Tmo := k.q[Tmo][1..]]);
    ExpireShape(k);
    var k2 := SetTsk(k1.(q := RemoveWaits(k1.q, t)), t, k.tsk[t].(eax := E_TMOUT, stat := RDY));
    SchedInsEffect(k2, t);
    var r := SchedIns(k2, t);
    forall h | ValidHead(h) ensures r.q[h] == Released(k, t, h) {}
  }

  lemma ExpireShape(k: KState)
    requires Shape(k) && k.q[Tmo] != []
    ensures var t := k.q[Tmo][0];
            && t < |k.tsk|
            && Shape(SetTsk(k.(q := RemoveWaits(k.q[Tmo := k.q[Tmo][1..]], t)), t,
              k.tsk[t].(eax := E_TMOUT, stat := RDY)))
  {}

  /** What the expiry loop does to the tasks: exactly those due are woken with E_TMOUT. */
  ghost predicate WokenExactly(k: KState, r: KState, due: seq<nat>)
    requires Shape(k) && Shape(r)
  {
    forall u: nat {:trigger r.tsk[u]} :: IsTask(u) ==>
      r.tsk[u] == if u in due then k.tsk[u].(stat := RDY, eax := E_TMOUT) else k.tsk[u]
  }

  /** ... and taken off the object queues they waited in. */
  ghost predicate UnlinkedExactly(k: KState, r: KState, due: seq<nat>)
    requires Shape(k) && Shape(r)
  {
    forall h, u: nat {:trigger u in r.q[h]} :: ValidHead(h) && KindOf(h) == W ==>
      (u in r.q[h] <==> u in k.q[h] && u !in due)
  }

  lemma UnlinkedStep(k: KState, k1: KState, r: KState, due: seq<nat>, t: nat)
    requires Shape(k) && LinksOk(k.q) && IsTask(t) && ReleaseEffect(k, t, k1) && Shape(r)
    requires UnlinkedExactly(k1, r, due)
    ensures UnlinkedExactly(k, r, [t] + due)
  {
    hide InsertAt, Without, NoDup, AllIds;
    var due' := [t] + due;
    forall h, u: nat | ValidHead(h) && KindOf(h) == W ensures u in r.q[h] <==> u in k.q[h] && u !in due' {
      WithoutMembers(k.q[h], t);
      WithoutNoDup(k.q[h], t);
      assert k1.q[h] == Without(k.q[h], t);
      assert u in due' <==> u == t || u in due;
      assert u in r.q[h] <==> u in k1.q[h] && u !in due;
    }
    assert forall h, u: nat {:trigger u in r.q[h]} :: ValidHead(h) && KindOf(h) == W ==>
      (u in r.q[h] <==> u in k.q[h] && u !in due');

  }

  lemma WokenStep(k: KState, k1: KState, r: KState, due: seq<nat>, t: nat)
    requires Shape(k) && Shape(k1) && Shape(r) && IsTask(t) && t !in due
    requires k1.tsk == k.tsk[t := k.tsk[t].(stat := RDY, eax := E_TMOUT)]
    requires WokenExactly(k1, r, due)
    ensures WokenExactly(k, r, [t] + due)
  {}

  lemma DueStep(s: seq<nat>, d: seq<nat>)
    requires InRange(s, d) && NoDup(s) && s != [] && d[s[0]] == 0
    ensures InRange(s[1..], d) && Due(s, d) == 1 + Due(s[1..], d)
    ensures s[..Due(s, d)] == [s[0]] + s[1..][..Due(s[1..], d)]
    ensures s[0] !in s[1..][..Due(s[1..], d)]
    ensures s[Due(s, d)..] == s[1..][Due(s[1..], d)..]
  {}

  lemma ExpireLoopEffect(k: KState, woken: bool)
    requires BaseInv(k) && OwnOk(k.tsk, k.mtx) && InRange(k.q[Tmo], k.delta)
    ensures var r := ExpireLoop(k, woken);
            var n := Due(k.q[Tmo], k.delta);
            && BaseInv(r) && OwnOk(r.tsk, r.mtx)
            && r.q[Tmo] == k.q[Tmo][n..] && r.delta == k.delta
            && r.sem == k.sem && r.mtx == k.mtx && r.cur == k.cur
            && WokenExactly(k, r, k.q[Tmo][..n])
            && UnlinkedExactly(k, r, k.q[Tmo][..n])
    decreases |k.q[Tmo]|
  {
    hide LinksOk, MtxOk, SemOk, OwnOk, CpuOk, ReadyOk, WaitOk, IdleOk, AllIds, Expire, NoDup;
    var s := k.q[Tmo];
    if s == [] || k.delta[s[0]] != 0 {
      assert s[..0] == [];
    } else {
      ExpireIsRelease(k);
      ReleaseKeepsBase(k, s[0], Expire(k));
      ReleaseKeepsOwn(k, s[0], Expire(k));
      TmoNoDup(k);
      DueStep(s, k.delta);
      ExpireLoopEffect(Expire(k), true);
      WokenStep(k, Expire(k), ExpireLoop(Expire(k), true), s[1..][..Due(s[1..], k.delta)], s[0]);
      UnlinkedStep(k, Expire(k), ExpireLoop(Expire(k), true), s[1..][..Due(s[1..], k.delta)], s[0]);
    }
  }

  lemma TmoNoDup(k: KState)
    requires Shape(k) && LinksOk(k.q)
    ensures NoDup(k.q[Tmo])
  {}

  /** A tick keeps the invariant, takes exactly the tasks with one tick left off the timeout list, and wakes exactly
      those with E_TMOUT. */
  lemma TickEffect(k: KState)
    requires Inv(k)
    ensures var r := Tick(k);
            && Inv(r) && r.sem == k.sem && r.mtx == k.mtx && r.cur == k.cur
            && (forall u :: u in k.q[Tmo] ==> (u in r.q[Tmo] <==> Remaining(k.q[Tmo], k.delta, u) > 1))
            && (forall u :: u in r.q[Tmo] ==>
                  u in k.q[Tmo] && Remaining(r.q[Tmo], r.delta, u) == Remaining(k.q[Tmo], k.delta, u) - 1)
            && (forall u: nat {:trigger r.tsk[u]} :: IsTask(u) ==>
                  r.tsk[u] == if u in k.q[Tmo] && u !in r.q[Tmo] then k.tsk[u].(stat := RDY, eax := E_TMOUT)
                    else k.tsk[u])
            && (forall h, u: nat {:trigger u in r.q[h]} :: ValidHead(h) && KindOf(h) == W ==>
                  (u in r.q[h] <==> u in k.q[h] && !(u in k.q[Tmo] && u !in r.q[Tmo])))
  {
    hide LinksOk, MtxOk, SemOk, OwnOk, CpuOk, ReadyOk, WaitOk, IdleOk, AllIds, ExpireLoop, Remaining;
    var s := k.q[Tmo];
    var d := Ticked(s, k.delta);
    var k0 := k.(delta := d);
    TickExact(s, k.delta);
    ExpireLoopEffect(k0, false);
    var n := Due(s, d);
    assert s == s[..n] + s[n..];
    DuePrefix(s, n);
  }

  lemma DuePrefix(s: seq<nat>, n: nat)
    requires NoDup(s) && n <= |s|
    ensures forall u :: u in s[..n] <==> u in s && u !in s[n..]
  {
    assert s == s[..n] + s[n..];
  }

  // ----- Dispatching -----

  /** Task t may run on CPU c now: it is ready there, or it is the one running there. */
  ghost predicate Candidate(k: KState, c: nat, t: nat)
    requires Shape(k) && c < 2
  {
    IsTask(t) && k.tsk[t].cpu == c && (k.tsk[t].stat == RDY || (k.tsk[t].stat == RUN && k.cur[c] == t))
  }

  lemma FirstRunnableIsFirst(tsk: seq<Tcb>, c: nat, s: seq<nat>)
    requires FirstRunnable(tsk, c, s).Some?
    ensures exists i: nat :: i < |s| && s[i] == FirstRunnable(tsk, c, s).value
                             && forall j: nat :: j < i ==> !Runnable(tsk, c, s[j])
  {
    if !Runnable(tsk, c, s[0]) {
      FirstRunnableIsFirst(tsk, c, s[1..]);
      var i: nat :| i < |s[1..]| && s[1..][i] == FirstRunnable(tsk, c, s[1..]).value
                    && forall j: nat :: j < i ==> !Runnable(tsk, c, s[1..][j]);
      assert s[i + 1] == s[1..][i];
      forall j: nat | j < i + 1 ensures !Runnable(tsk, c, s[j]) {
        if j > 0 { assert s[j] == s[1..][j - 1]; }
      }
    }
  }

  /** The scan finds the first runnable task of the most urgent level that has one. */
  lemma PickIsFirst(k: KState, c: nat, p: nat)
    requires Shape(k) && 1 <= p <= TMAX_TPRI + 1
    ensures var r := Pick(k, c, p);
            && (r.None? ==> forall g: nat, u :: p <= g <= TMAX_TPRI && u in k.q[Ready(g)] ==> !Runnable(k.tsk, c, u))
            && (r.Some? ==> exists g: nat ::
                  && p <= g <= TMAX_TPRI && FirstAt(k, c, g, r.value)
                  && forall f: nat, u :: p <= f < g && u in k.q[Ready(f)] ==> !Runnable(k.tsk, c, u))
    decreases TMAX_TPRI + 1 - p
  {
    hide AllIds, OwnersOk, Runnable, FirstRunnable;
    if p <= TMAX_TPRI {
      var s := k.q[Ready(p)];
      if FirstRunnable(k.tsk, c, s).Some? {
        FirstRunnableIsFirst(k.tsk, c, s);
        assert FirstAt(k, c, p, FirstRunnable(k.tsk, c, s).value);
      } else {
        PickIsFirst(k, c, p + 1);
      }
    }
  }

  /** Task t is the first runnable one in the ready queue of priority g. */
  ghost predicate FirstAt(k: KState, c: nat, g: nat, t: nat)
    requires Shape(k) && 1 <= g <= TMAX_TPRI
  {
    exists i: nat :: i < |k.q[Ready(g)]| && k.q[Ready(g)][i] == t
                     && forall j: nat :: j < i ==> !Runnable(k.tsk, c, k.q[Ready(g)][j])
  }

  /** The state in which sched_do_next_tsk scans: the running task counts as ready. */
  ghost function Preempted(k: KState, c: nat): (r: KState)
    requires Shape(k) && c < 2
    ensures Shape(r)
  {
    if k.tsk[k.cur[c]].stat == RUN then SetStat(k, k.cur[c], RDY) else k
  }

  lemma PreemptedKeepsInv(k: KState, c: nat)
    requires Inv(k) && c < 2
    ensures var r := Preempted(k, c);
            && Inv(r) && r == k.(tsk := r.tsk)
            && (forall u: nat :: IsTask(u) ==> (Runnable(r.tsk, c, u) <==> Candidate(k, c, u)))
            && (forall u: nat :: IsTask(u) && r.tsk[u].cpu == c ==> r.tsk[u].stat != RUN)
            && (forall u: nat :: IsTask(u) && k.tsk[u].cpu != c ==> r.tsk[u] == k.tsk[u])
            && (forall u: nat :: IsTask(u) ==> r.tsk[u].pri == k.tsk[u].pri && r.tsk[u].cpu == k.tsk[u].cpu)
  {
    hide LinksOk, MtxOk, SemOk, OwnOk, ReadyOk, WaitOk, WellFormed, IdleOk, AllIds;
    if k.tsk[k.cur[c]].stat == RUN { TouchKeepsInv(k, k.cur[c], k.tsk[k.cur[c]].(stat := RDY)); }
  }

  /** The idle task makes every scan succeed. */
  lemma PickFinds(k: KState, c: nat)
    requires Inv(k) && c < 2 && forall u: nat :: IsTask(u) && k.tsk[u].cpu == c ==> k.tsk[u].stat != RUN
    ensures Pick(k, c, 1).Some?
  {
    hide LinksOk, MtxOk, SemOk, OwnOk, CpuOk, WaitOk, WellFormed, AllIds;
    PickIsFirst(k, c, 1);
    var idle := if c == 0 then IDLE0 else IDLE1;
    assert idle in k.q[Ready(k.tsk[idle].pri)];
    assert Runnable(k.tsk, c, idle);
  }

  /** Dispatching is total and optimal: it never fails; it runs a candidate of the CPU that no candidate beats in
      priority and that comes first in its ready queue; it changes no task of the other CPU and no queue. */
  lemma DispatchOptimal(k: KState, c: nat)
    requires Inv(k) && c < 2
    ensures var (r, id) := DoNext(k, c);
            && id != E_ID && id >= 0 && r.cur[c] == id
            && Candidate(k, c, id) && r.tsk[id].stat == RUN
            && (forall u: nat :: Candidate(k, c, u) ==> k.tsk[id].pri <= k.tsk[u].pri)
            && FirstAt(Preempted(k, c), c, k.tsk[id].pri, id)
            && (forall u: nat :: IsTask(u) && k.tsk[u].cpu != c ==> r.tsk[u] == k.tsk[u])
            && (forall u: nat :: IsTask(u) && u != id ==>
                  r.tsk[u].stat == (if k.tsk[u].stat == RUN && k.tsk[u].cpu == c then RDY else k.tsk[u].stat))
            && r == k.(tsk := r.tsk, cur := k.cur[c := id])
  {
    hide LinksOk, MtxOk, SemOk, OwnOk, WaitOk, WellFormed, AllIds, IdleOk, FirstAt;
    var k1 := Preempted(k, c);
    PreemptedKeepsInv(k, c);
    PickFinds(k1, c);
    PickIsFirst(k1, c, 1);
    var id := Pick(k1, c, 1).value;
    assert DoNext(k, c).1 == id;
    var g: nat :| 1 <= g <= TMAX_TPRI && FirstAt(k1, c, g, id)
                  && forall f: nat, u :: 1 <= f < g && u in k1.q[Ready(f)] ==> !Runnable(k1.tsk, c, u);
    FirstAtIn(k1, c, g, id);
    forall u: nat | Candidate(k, c, u) ensures k.tsk[id].pri <= k.tsk[u].pri {
      assert u in k1.q[Ready(k1.tsk[u].pri)];
    }
  }

  lemma FirstAtIn(k: KState, c: nat, g: nat, t: nat)
    requires Shape(k) && 1 <= g <= TMAX_TPRI && FirstAt(k, c, g, t)
    ensures t in k.q[Ready(g)] && IsTask(t)
  {}

  lemma RunKeepsBase(k: KState, c: nat, t: nat)
    requires Shape(k) && ReadyOk(k.tsk, k.q) && WaitOk(k.tsk, k.q) && CpuOk(k.tsk, k.cur) && IdleOk(k.tsk)
    requires c < 2 && IsTask(t) && k.tsk[t].stat == RDY && k.tsk[t].cpu == c
    requires forall u: nat :: IsTask(u) && k.tsk[u].cpu == c ==> k.tsk[u].stat != RUN
    ensures var r := SetStat(k, t, RUN).(cur := k.cur[c := t]);
            && Shape(r) && ReadyOk(r.tsk, r.q) && WaitOk(r.tsk, r.q) && CpuOk(r.tsk, r.cur) && IdleOk(r.tsk)
            && Alike(k.tsk, r.tsk)
  {}

  lemma DoNextKeepsInv(k: KState, c: nat)
    requires Inv(k) && c < 2
    ensures Inv(DoNext(k, c).0)
  {
    hide LinksOk, MtxOk, SemOk, OwnOk, ReadyOk, CpuOk, WaitOk, WellFormed, AllIds, IdleOk, Alike;
    var k1 := Preempted(k, c);
    PreemptedKeepsInv(k, c);
    PickFinds(k1, c);
    var t := Pick(k1, c, 1).value;
    var r := SetStat(k1, t, RUN).(cur := k.cur[c := t]);
    RunKeepsBase(k1, c, t);
    ObjectsKeep(k1, r);
    NoMutexBasePri(k1, t);
    OwnKeep(k1.tsk, k1.mtx, t, r.tsk[t]);
  }
}
