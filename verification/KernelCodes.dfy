/** The result codes: each one is returned exactly when it should be, and an error leaves the tables as they are. */
module KernelCodes {
  import opened Links
  import opened Timeouts
  import opened KernelState
  import opened KernelInvariant
  import opened KernelSteps
  import opened KernelMutex
  import opened KernelRuns
  import opened KernelTables
  import opened KernelPriorities
  import opened KernelCounts

  /** The call names an id outside the table. */
  predicate BadId(call: Call) {
    match call
    case Cre(t, _) => t < 1 || t > SLOTS
    case Act(t) => t > SLOTS
    case CreS(s, _, _, _) => s < 1 || s > MAX_ID
    case Sig(s) => s < 1 || s > MAX_ID
    case Pol(s) => s < 1 || s > MAX_ID
    case Twai(s, _) => s < 1 || s > MAX_ID
    case CreM(m, _, _) => m < 1 || m > SLOTS
    case Loc(m, _) => m < 1 || m > SLOTS
    case Unl(m) => m < 1 || m > SLOTS
    case _ => false
  }

  predicate Creates(call: Call) { call.Cre? || call.CreS? || call.CreM? }

  predicate HasTask(k: KState, t: nat) { t < |k.tsk| && k.tsk[t].stat != NON }

  predicate HasSem(k: KState, s: nat) { 1 <= s < |k.sem| && k.sem[s].act }

  predicate HasMtx(k: KState, m: nat) { 1 <= m < |k.mtx| && k.mtx[m].act }

  /** The object the call names exists; a call that names none is about its caller. */
  ghost predicate Exists(k: KState, c: nat, call: Call) {
    match call
    case Cre(t, _) => HasTask(k, t)
    case Act(t) => HasTask(k, Target(k, c, t))
    case Wup(t) => HasTask(k, Target(k, c, t))
    case CreS(s, _, _, _) => HasSem(k, s)
    case Sig(s) => HasSem(k, s)
    case Pol(s) => HasSem(k, s)
    case Twai(s, _) => HasSem(k, s)
    case CreM(m, _, _) => HasMtx(k, m)
    case Loc(m, _) => HasMtx(k, m)
    case Unl(m) => HasMtx(k, m)
    case _ => true
  }

  /** There is no room for one more request: 16 activations, 17 wake-ups, or the semaphore's maximum. */
  ghost predicate Full(k: KState, c: nat, call: Call) {
    match call
    case Act(id) => var t := Target(k, c, id); HasTask(k, t) && k.tsk[t].stat != DMT && k.tsk[t].actcnt >= 16
    case Wup(id) =>
      var t := Target(k, c, id);
      HasTask(k, t) && k.tsk[t].stat != DMT && k.tsk[t].stat != WAI && k.tsk[t].wupcnt >= 17
    case Sig(s) => HasSem(k, s) && SemQ(s) in k.q && k.q[SemQ(s)] == [] && k.sem[s].cnt == k.sem[s].max
    case _ => false
  }

  /** The task may not lock the mutex now or later: it owns it, or its base priority is below the mutex's ceiling. */
  predicate NeverLocks(k: KState, m: nat, t: nat) {
    && HasMtx(k, m) && k.mtx[m].lock
    && (k.mtx[m].owner == t || (k.mtx[m].atr % 4 != 0 && t < |k.tsk| && k.tsk[t].bpri > k.mtx[m].ceil))
  }

  /** A lock that is not allowed, or an unlock by another task than the owner. */
  ghost predicate Illegal(k: KState, c: nat, call: Call) {
    && c < |k.cur|
    && match call
       case Loc(m, _) => NeverLocks(k, m, k.cur[c])
       case Unl(m) => HasMtx(k, m) && !(k.mtx[m].lock && k.mtx[m].owner == k.cur[c])
       case _ => false
  }

  /** The object is not to be had now: the count is 0, or the mutex belongs to another task and the caller only polls.
      */
  ghost predicate NotNow(k: KState, c: nat, call: Call) {
    match call
    case Pol(s) => HasSem(k, s) && k.sem[s].cnt == 0
    case Twai(s, _) => HasSem(k, s) && k.sem[s].cnt == 0
    case Loc(m, tmout) => tmout == 0 && HasMtx(k, m) && k.mtx[m].lock && !Illegal(k, c, call)
    case _ => false
  }

  /** Which code is returned when. */
  ghost predicate Codes(k: KState, c: nat, call: Call, ret: int) {
    && (ret == E_ID <==> BadId(call))
    && (ret == E_NOEXS <==> !BadId(call) && !Creates(call) && !Exists(k, c, call))
    && (ret == E_OBJ <==>
          || (!BadId(call) && Creates(call) && Exists(k, c, call))
          || (call.Wup? && IsTask(Target(k, c, call.t)) && |k.tsk| == SLOTS && k.tsk[Target(k, c, call.t)].stat == DMT))
    && (ret == E_QOVR <==> Full(k, c, call))
    && (ret == E_ILUSE <==> Illegal(k, c, call))
    && (ret == E_TMOUT <==> NotNow(k, c, call))
    && ret in {E_OK, E_ID, E_NOEXS, E_OBJ, E_QOVR, E_ILUSE, E_TMOUT}
  }

  lemma CreCodes(k: KState, c: nat, t: nat, p: Pri)
    requires Shape(k) && WellTyped(c, Cre(t, p))
    ensures Codes(k, c, Cre(t, p), Exec(k, c, Cre(t, p)).1)
  {
    hide QShape;
  }

  lemma ActCodes(k: KState, c: nat, id: nat)
    requires Shape(k) && c < 2
    ensures Codes(k, c, Act(id), Exec(k, c, Act(id)).1)
  {
    hide QShape, ActTsk;
    if id < SLOTS { ActTable(k, c, id); } else { LastIdCodes(k, c, id); }
  }

  lemma WupCodes(k: KState, c: nat, id: nat)
    requires Shape(k) && WellTyped(c, Wup(id))
    ensures Codes(k, c, Wup(id), Exec(k, c, Wup(id)).1)
  {
    hide QShape, WupTsk;
    if id < SLOTS { WakeTable(k, c, id); } else { LastIdCodes(k, c, id); }
  }

  lemma LastIdCodes(k: KState, c: nat, id: nat)
    requires Shape(k) && c < 2 && id >= SLOTS
    ensures ActTsk(k, c, id).1 == if id == SLOTS then E_NOEXS else E_ID
    ensures id == SLOTS ==> WupTsk(k, c, id).1 == E_NOEXS
  {
    hide QShape;
  }

  lemma SleepCodes(k: KState, c: nat, call: Call)
    requires Shape(k) && WellTyped(c, call) && (call.Slp? || call.Tslp? || call.Dly?)
    ensures Codes(k, c, call, Exec(k, c, call).1)
  {
    hide QShape, SlpTsk, TslpTsk, DlyTsk;
    match call
    case Slp => SleepTable(k, c, 0);
    case Tslp(x) => SleepTable(k, c, x);
    case Dly(d) => DelayTable(k, c, d);
  }

  lemma SemCodes(k: KState, c: nat, call: Call)
    requires Shape(k) && WellTyped(c, call) && (call.CreS? || call.Pol? || call.Twai?)
    ensures Codes(k, c, call, Exec(k, c, call).1)
  {
    hide AllIds, InsertAt, Wait;
  }

  /** The count of an existing semaphore cannot wrap when it is raised. */
  lemma SemBounds(k: KState, s: nat)
    requires Inv(k) && Shape(k) && 1 <= s <= MAX_ID
    ensures k.sem[s].cnt <= k.sem[s].max < UINT_MOD - 1
  {
    hide LinksOk, CpuOk, MtxOk, OwnOk, IdleOk, ReadyOk, WaitOk, WellFormed;
    assert SemAt(k.tsk, k.q[SemQ(s)], k.sem[s]);
  }

  lemma SigCodes(k: KState, c: nat, s: nat)
    requires Inv(k) && Shape(k) && c < 2
    ensures Codes(k, c, Sig(s), Exec(k, c, Sig(s)).1)
  {
    hide Inv, AllIds, InsertAt, Without, Removed;
    if 1 <= s <= MAX_ID { SemBounds(k, s); }
  }

  lemma MtxCodes(k: KState, c: nat, call: Call)
    requires Shape(k) && WellTyped(c, call) && (call.CreM? || call.Loc? || call.Unl?)
    ensures Codes(k, c, call, Exec(k, c, call).1)
  {
    hide QShape, Boost, Wait, PassMtx, Settle;
  }

  /** Every call returns each code exactly when it should. */
  lemma CodesExact(k: KState, c: nat, call: Call)
    requires Inv(k) && WellTyped(c, call) && Shape(k)
    ensures Codes(k, c, call, Exec(k, c, call).1)
  {
    hide Inv, Exec, Codes, QShape, OwnersOk;
    match call {
      case Cre(t, p) => CreCodes(k, c, t, p);
      case Act(id) => ActCodes(k, c, id);
      case Wup(id) => WupCodes(k, c, id);
      case Slp => SleepCodes(k, c, call);
      case Tslp(_) => SleepCodes(k, c, call);
      case Dly(_) => SleepCodes(k, c, call);
      case CreM(_, _, _) => MtxCodes(k, c, call);
      case Loc(_, _) => MtxCodes(k, c, call);
      case Unl(_) => MtxCodes(k, c, call);
      case Sig(s) => SigCodes(k, c, s);
      case _ => SemCodes(k, c, call);
    }
  }

  // ----- Errors -----

  /** A call that returns an error changes nothing, but for a semaphore wait that blocks: its E_TMOUT is the code the
      caller finds if nobody signals in time. */
  lemma ErrorsChangeNothing(k: KState, c: nat, call: Call)
    requires Shape(k) && WellTyped(c, call) && Exec(k, c, call).1 != E_OK
    requires call.Twai? ==> !SemBlocks(k, call.s, call.tmout)
    ensures Exec(k, c, call).0 == k
  {
    hide QShape, InsertAt, Without, Removed, Inserted, Boost, PassMtx, Settle, Wait;
  }
}
