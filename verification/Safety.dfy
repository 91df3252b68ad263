/** Safety of the protocol under all its assumptions: with stale reads of the object, lost replies,
    conflicts and crashes anywhere, live resources are always accounted for by the Secret, and the
    finalizer guards them. */
module Safety {
  import opened Options
  import opened Store
  import opened Protocol
  import opened History

  // ----- invariant -----

  predicate HasFinalizer(s: State) { s.obj.Some? && s.obj.value.finalizer }

  ghost predicate Guarding(s: State) {
    && s.live + s.inflight <= Covered(Recorded(s.secret))
    && (!HasFinalizer(s) ==> s.live + s.inflight == {})
  }

  ghost predicate AtMostOne(s: State) {
    forall i, j | i in s.workers && j in s.workers :: i == j
  }

  /** The pass's snapshot accounts for everything. It need not be the stored one: a late save may have
      arrived since the load. */
  predicate Accounts(s: State, p: Pass) { s.live + s.inflight <= Covered(Base(p.stack.snap)) }

  /** The snapshot is the target and nothing is pending. */
  predicate Clean(c: Checkpoint, target: set<Resource>) { c.resources == target && Pending(c) == {} }

  /** The fence: the preview's status write landed on the local object's own version. */
  ghost predicate Fenced(s: State, p: Pass) {
    && p.fence in s.seenObjs
    && p.fence.spec == p.obj.spec && p.fence.deleting == p.obj.deleting
    && p.fence.finalizer == p.obj.finalizer && p.fence.gen == p.obj.gen
    && (p.obj.finalizer ==> HasFinalizer(s))
  }

  ghost predicate PreviewFacts(s: State, p: Pass) {
    && p.previewOp == OpFor(p.obj)
    && (!p.changes ==> Clean(Base(p.stack.snap), Target(OpFor(p.obj), p.cfg)))
  }

  ghost predicate DeployFacts(s: State, p: Pass) {
    && p.changes && p.op == OpFor(p.obj)
    && s.live + s.inflight <= Covered(p.mem)
    && p.armed <= p.mem.creating && p.armed <= Recorded(s.secret).creating
    && (!p.saveFailed ==> p.mem == Base(p.stack.snap))
    && (!p.obj.finalizer ==> p.armed == {})
  }

  ghost predicate SettledFacts(s: State, p: Pass) {
    && Accounts(s, p)
    && Clean(Base(p.stack.snap), Target(OpFor(p.obj), p.cfg))
    && (p.changes ==> p.op == OpFor(p.obj))
  }

  ghost predicate PassSafe(s: State, p: Pass) {
    && p.cfg == p.obj.spec
    && (p.pc != Fetched ==> p.obj.deleting || p.obj.finalizer)
    && match p.pc
       case Fetched => true
       case Guarded => true
       case Loaded => Accounts(s, p)
       case Previewed => Accounts(s, p) && PreviewFacts(s, p)
       case Reported => Accounts(s, p) && PreviewFacts(s, p) && Fenced(s, p)
       case Deploying => Fenced(s, p) && p.previewOp == OpFor(p.obj) && DeployFacts(s, p)
       case Deployed => Fenced(s, p) && p.previewOp == OpFor(p.obj) && p.changes && SettledFacts(s, p)
       case Finalizing => Fenced(s, p) && p.previewOp == OpFor(p.obj) && SettledFacts(s, p)
  }

  /** No pass has passed its fence. */
  predicate Unfenced(s: State) {
    forall i | i in s.workers :: s.workers[i].pc in {Fetched, Guarded, Loaded, Previewed}
  }

  /** The creates that engines at work may issue. */
  function Armed(s: State): set<Resource> {
    set i, r | i in s.workers && s.workers[i].pc == Deploying && r in s.workers[i].armed :: r
  }

  /** A late write that could still land does no harm: a save accounts for everything, and the removal
      of the finalizer finds nothing live and no deployment near. */
  ghost predicate LateSafe(s: State, w: Request) {
    match w
    case FinalizerWrite(obj, present) =>
      && (present ==> !obj.deleting)
      && (!present && Current(s, obj) ==> s.live + s.inflight == {} && Unfenced(s))
    case StatusWrite(_) => true
    case SecretWrite(_, stack, c) =>
      MayLand(s.secret, stack.handle) ==> s.live + s.inflight <= Covered(c) && Armed(s) <= c.creating
  }

  ghost predicate LatesSafe(s: State) {
    forall w | w in s.late :: LateSafe(s, w)
  }

  ghost predicate CoreSafe(s: State) {
    && HistoryOk(s) && Guarding(s) && AtMostOne(s)
    && forall i | i in s.workers :: PassSafe(s, s.workers[i])
  }

  ghost predicate SafeOk(s: State) { CoreSafe(s) && LatesSafe(s) }

  // ----- preservation -----

  lemma EndPassSafe(s: State, t: State, i: nat, result: PassResult)
    requires AtMostOne(s) && i in s.workers && Guarding(t) && t.workers == s.workers
    requires HistoryOk(t)
    ensures CoreSafe(EndPass(t, i, result))
  {
    EndPassKeeps(t, i, result);
  }

  /** A pass ends with its write of the object on the way. */
  lemma SendEndSafe(s: State, i: nat, w: Request, r: PassResult)
    requires CoreSafe(s) && i in s.workers && w.obj == s.workers[i].obj && !w.SecretWrite?
    ensures CoreSafe(EndPass(Send(s, w), i, r))
  {
    SendEndKeeps(s, i, w, r);
    assert PassOk(s, s.workers[i]);
    SendKeeps(s, w);
    EndPassSafe(s, Send(s, w), i, r);
  }

  /** The only pass under way moves on. */
  lemma SetPassSafe(s: State, i: nat, q: Pass)
    requires HistoryOk(SetPass(s, i, q)) && Guarding(s)
    requires forall j | j in s.workers :: j == i
    requires PassSafe(s, q)
    ensures CoreSafe(SetPass(s, i, q))
  {
    var t := SetPass(s, i, q);
    assert Guarding(t);
    forall j | j in t.workers ensures PassSafe(t, t.workers[j]) {
      SameServerSamePass(s, t, q);
    }
  }

  ghost predicate SameServer(s: State, t: State) {
    && t.obj == s.obj && t.secret == s.secret && t.live == s.live && t.inflight == s.inflight
    && t.seenObjs == s.seenObjs
  }

  lemma SameServerSamePass(s: State, t: State, p: Pass)
    requires SameServer(s, t) && PassSafe(s, p)
    ensures PassSafe(t, p)
  {
  }

  /** A write of the object that keeps the finalizer if it was there. */
  lemma CommitSafe(s: State, o: Object)
    requires CoreSafe(s) && s.obj.Some? && s.obj.value.gen <= o.gen && o.observed <= o.gen
    requires s.obj.value.finalizer ==> o.finalizer
    ensures CoreSafe(Commit(s, o))
  {
    CommitKeeps(s, o);
    var t := Commit(s, o);
    forall i | i in t.workers ensures PassSafe(t, t.workers[i]) {
      assert PassSafe(s, s.workers[i]);
    }
  }

  lemma CollectSafe(a: Assumptions, s: State)
    requires CoreSafe(s) && AllHold(a) && EnvEnabled(a, s, CollectSecret)
    ensures CoreSafe(EnvEffect(a, s, CollectSecret))
  {
    CollectKeeps(a, s);
    var t := EnvEffect(a, s, CollectSecret);
    forall i | i in t.workers ensures PassSafe(t, t.workers[i]) {
      assert PassSafe(s, s.workers[i]);
    }
  }

  lemma CloudSafe(a: Assumptions, s: State, e: EnvStep)
    requires CoreSafe(s) && EnvEnabled(a, s, e) && (e.Land? || e.Vanish?)
    ensures CoreSafe(EnvEffect(a, s, e))
  {
    EnvKeeps(a, s, e);
    var t := EnvEffect(a, s, e);
    assert t.live + t.inflight <= s.live + s.inflight;
    forall i | i in t.workers ensures PassSafe(t, t.workers[i]) {
      assert PassSafe(s, s.workers[i]);
    }
  }

  lemma WriteSafe(a: Assumptions, s: State, e: EnvStep)
    requires CoreSafe(s) && EnvEnabled(a, s, e) && WritesObject(e) && !e.StripFinalizer?
    ensures CoreSafe(EnvEffect(a, s, e))
  {
    EnvWriteCommits(a, s, e);
    CommitSafe(s, EnvWrite(s.obj.value, e));
  }

  /** A late removal of the finalizer finds nothing live and no pass past its fence. */
  lemma LateRemovalSafe(s: State, obj: Object)
    requires CoreSafe(s) && obj in s.seenObjs && Current(s, obj) && LateSafe(s, FinalizerWrite(obj, false))
    ensures CoreSafe(Commit(s, Put(s.obj.value, obj.(finalizer := false))))
  {
    OwnVersion(s, obj);
    CommitKeeps(s, s.obj.value.(finalizer := false));
    var t := Commit(s, s.obj.value.(finalizer := false));
    forall i | i in t.workers ensures PassSafe(t, t.workers[i]) { assert PassSafe(s, s.workers[i]); }
  }

  /** A late save accounts for everything. */
  lemma LateSaveSafe(s: State, obj: Object, stack: Stack, c: Checkpoint)
    requires CoreSafe(s) && Authored(s, obj, stack) && MayLand(s.secret, stack.handle)
    requires LateSafe(s, SecretWrite(obj, stack, c))
    ensures CoreSafe(StoreSecret(s, obj, stack, c))
  {
    StoreKeeps(s, obj, stack, c);
    var t := StoreSecret(s, obj, stack, c);
    forall i | i in t.workers ensures PassSafe(t, t.workers[i]) {
      var p := s.workers[i];
      assert PassSafe(s, p);
      if p.pc == Deploying { assert forall r | r in p.armed :: r in Armed(s); }
    }
  }

  lemma ForgetSafe(s: State, w: Request)
    requires CoreSafe(s)
    ensures CoreSafe(s.(late := s.late - {w}))
  {
    var t := s.(late := s.late - {w});
    SameRecordsKeeps(s, t);
    forall i | i in t.workers ensures PassSafe(t, t.workers[i]) { SameServerSamePass(s, t, s.workers[i]); }
  }

  lemma ArriveSafe(a: Assumptions, s: State, w: Request)
    requires SafeOk(s) && AllHold(a) && EnvEnabled(a, s, Arrive(w))
    ensures CoreSafe(EnvEffect(a, s, Arrive(w)))
  {
    var s1 := s.(late := s.late - {w});
    assert LateOk(s, w) && LateSafe(s, w);
    ForgetSafe(s, w);
    match w
    case FinalizerWrite(obj, present) =>
      if present {
        OwnVersion(s1, obj);
        CommitSafe(s1, s.obj.value.(finalizer := true));
      } else {
        LateRemovalSafe(s1, obj);
      }
    case StatusWrite(obj) =>
      OwnVersion(s1, obj);
      CommitSafe(s1, PutStatus(s.obj.value, obj.(observed := obj.gen)));
    case SecretWrite(obj, stack, c) =>
      assert Armed(s1) == Armed(s);
      LateSaveSafe(s1, obj, stack, c);
  }

  lemma EnvSafe(a: Assumptions, s: State, e: EnvStep)
    requires SafeOk(s) && AllHold(a) && EnvEnabled(a, s, e)
    ensures CoreSafe(EnvEffect(a, s, e))
  {
    match e
    case EditSpec(_) => WriteSafe(a, s, e);
    case RequestDeletion(_) => WriteSafe(a, s, e);
    case SetOtherFinalizers(_) => WriteSafe(a, s, e);
    case EndForeground => WriteSafe(a, s, e);
    case StripFinalizer => assert false;
    case CollectSecret => CollectSafe(a, s);
    case Land(r) => CloudSafe(a, s, e);
    case Vanish(r) => CloudSafe(a, s, e);
    case Arrive(w) => ArriveSafe(a, s, w);
  }

  lemma MemStillCovers(a: Assumptions, s: State, p: Pass, e: EngineStep)
    requires EngineAllowed(a, s, p, e) && s.live + s.inflight <= Covered(p.mem)
    requires p.armed <= p.mem.creating
    ensures s.live + s.inflight <= Covered(MemAfter(p.mem, e))
    ensures ArmedAfter(p.armed, e) <= MemAfter(p.mem, e).creating
  {
  }

  lemma SavedPassSafe(a: Assumptions, s: State, i: nat, e: EngineStep, reply: Reply)
    requires i in s.workers && HistoryOk(s) && Guarding(s)
    requires PassSafe(s, s.workers[i]) && PassOk(s, s.workers[i]) && EngineAllowed(a, s, s.workers[i], e)
    requires SaveOk(s, s.workers[i], reply)
    requires IsSave(e)
    requires e.reply == reply
    ensures var t := SaveEffect(s, i, e, reply); Guarding(t) && PassSafe(t, t.workers[i])
  {
    var t := SaveEffect(s, i, e, reply);
    MemStillCovers(a, s, s.workers[i], e);
    assert Fenced(t, t.workers[i]);
    assert DeployFacts(t, t.workers[i]);
  }

  lemma SaveSafe(a: Assumptions, s: State, i: nat, e: EngineStep, reply: Reply)
    requires CoreSafe(s) && AllHold(a) && i in s.workers && EngineAllowed(a, s, s.workers[i], e)
    requires SaveOk(s, s.workers[i], reply)
    requires IsSave(e)
    requires e.reply == reply
    ensures CoreSafe(SaveEffect(s, i, e, reply))
  {
    assert PassSafe(s, s.workers[i]) && PassOk(s, s.workers[i]);
    SaveEffectKeeps(s, i, e, reply);
    SavedPassSafe(a, s, i, e, reply);
    OnlyPass(s, SaveEffect(s, i, e, reply), i);
  }

  /** With one pass under way, its safety is everybody's. */
  lemma OnlyPass(s: State, t: State, i: nat)
    requires AtMostOne(s) && i in s.workers && t.workers.Keys == s.workers.Keys
    requires HistoryOk(t) && Guarding(t) && PassSafe(t, t.workers[i])
    ensures CoreSafe(t)
  {
  }

  lemma IssueSafe(a: Assumptions, s: State, i: nat, e: EngineStep)
    requires CoreSafe(s) && AllHold(a) && i in s.workers && EngineAllowed(a, s, s.workers[i], e)
    requires e.IssueCreate? || e.IssueDelete?
    ensures CoreSafe(EngineEffect(s, i, e))
  {
    var p := s.workers[i];
    assert PassSafe(s, p);
    EngineKeeps(a, s, i, e);
    var t := EngineEffect(s, i, e);
    assert Guarding(t);
    assert PassSafe(t, p);
  }

  lemma EngineSafe(a: Assumptions, s: State, i: nat, e: EngineStep)
    requires CoreSafe(s) && AllHold(a) && i in s.workers && EngineAllowed(a, s, s.workers[i], e)
    ensures CoreSafe(EngineEffect(s, i, e))
  {
    match e
    case IssueCreate(r) => IssueSafe(a, s, i, e);
    case IssueDelete(r) => IssueSafe(a, s, i, e);
    case BeginCreate(_, reply) => SaveSafe(a, s, i, e, reply);
    case EndCreate(_, _, reply) => SaveSafe(a, s, i, e, reply);
    case BeginDelete(_, reply) => SaveSafe(a, s, i, e, reply);
    case EndDelete(_, reply) => SaveSafe(a, s, i, e, reply);
  }

  /** The status write that lands came from the server's own version, so the refresh changes nothing
      the pass depends on. */
  lemma RefreshSafe(s: State, p: Pass, q: Pass, next: Pc)
    requires s.obj.Some? && p.obj == s.obj.value && PassSafe(s, p) && PassOk(s, p) && Guarding(s) && HistoryOk(s)
    requires (p.pc == Previewed && next == Reported) || (p.pc == Deployed && next == Finalizing)
    requires var o := PutStatus(s.obj.value, p.obj.(observed := p.obj.gen));
             Commit(s, o).obj.Some? &&
             q == p.(pc := next, obj := Commit(s, o).obj.value, fence := if next == Reported then p.obj else p.fence)
    ensures PassSafe(Commit(s, PutStatus(s.obj.value, p.obj.(observed := p.obj.gen))), q)
  {
    var s1 := Commit(s, PutStatus(s.obj.value, p.obj.(observed := p.obj.gen)));
    assert q.obj == p.obj.(observed := p.obj.gen, rv := s.clock + 1);
    assert Fenced(s1, q);
    if next == Reported { assert PreviewFacts(s1, q); } else { assert SettledFacts(s1, q); }
  }

  lemma StatusSafe(a: Assumptions, s: State, i: nat, reply: Reply, next: Pc)
    requires CoreSafe(s) && AllHold(a) && i in s.workers && StatusOk(a, s, s.workers[i].obj, reply)
    requires (s.workers[i].pc == Previewed && next == Reported) || (s.workers[i].pc == Deployed && next == Finalizing)
    ensures CoreSafe(WriteStatus(s, i, s.workers[i], reply, next))
  {
    var p := s.workers[i];
    assert PassSafe(s, p) && PassOk(s, p);
    StatusKeeps(s, i, reply, next);
    if reply.Refused? {
      SendEndSafe(s, i, StatusWrite(p.obj), Failed(true));
    } else {
      assert p.obj == s.obj.value;
      var o := PutStatus(s.obj.value, p.obj.(observed := p.obj.gen));
      CommitKeeps(s, o);
      var s1 := Commit(s, o);
      assert Guarding(s1);
      if reply.Lost? || s1.obj.None? {
        EndPassSafe(s, s1, i, Failed(true));
      } else {
        var q := p.(pc := next, obj := s1.obj.value, fence := if next == Reported then s.obj.value else p.fence);
        RefreshSafe(s, p, q, next);
        SetPassSafe(s1, i, q);
      }
    }
  }

  lemma AddSafe(s: State, i: nat, reply: Reply)
    requires CoreSafe(s) && i in s.workers && (reply.Refused? || Current(s, s.workers[i].obj))
    requires s.workers[i].pc == Fetched && !s.workers[i].obj.deleting
    ensures CoreSafe(AddEffect(s, i, s.workers[i], reply))
  {
    var p := s.workers[i];
    assert PassSafe(s, p);
    AddKeeps(s, i, reply);
    if reply.Refused? {
      SendEndSafe(s, i, FinalizerWrite(p.obj, true), Failed(false));
    } else {
      PutFinalizer(s, i, true);
      CommitKeeps(s, s.obj.value.(finalizer := true));
      var s1 := Commit(s, s.obj.value.(finalizer := true));
      if reply.Lost? || s1.obj.None? {
        EndPassSafe(s, s1, i, Failed(false));
      } else {
        SetPassSafe(s1, i, p.(pc := Guarded, obj := s1.obj.value));
      }
    }
  }

  lemma RemovalFindsNothing(s: State, i: nat)
    requires CoreSafe(s) && i in s.workers && Current(s, s.workers[i].obj)
    requires s.workers[i].pc == Finalizing && s.workers[i].obj.deleting
    ensures Covered(Base(s.workers[i].stack.snap)) == {} && s.live == {} && s.inflight == {}
    ensures s.secret == s.workers[i].stack.handle ==> Covered(Recorded(s.secret)) == {}
  {
    var p := s.workers[i];
    assert PassSafe(s, p) && PassOk(s, p);
  }

  lemma RemoveSafe(s: State, i: nat, reply: Reply)
    requires CoreSafe(s) && i in s.workers && (reply.Refused? || Current(s, s.workers[i].obj))
    requires s.workers[i].pc == Finalizing && s.workers[i].obj.deleting
    ensures CoreSafe(RemoveEffect(s, i, s.workers[i], reply))
  {
    if reply.Refused? {
      SendEndSafe(s, i, FinalizerWrite(s.workers[i].obj, false), Failed(false));
    } else {
      PutFinalizer(s, i, false);
      RemovalFindsNothing(s, i);
      CommitKeeps(s, s.obj.value.(finalizer := false));
      EndPassSafe(s, Commit(s, s.obj.value.(finalizer := false)), i,
                  if reply.Acked? then Quiet(Finalized, s.workers[i].changes) else Failed(false));
    }
  }

  lemma LoadSafe(s: State, i: nat)
    requires CoreSafe(s) && i in s.workers && s.workers[i].pc == Guarded
    ensures CoreSafe(LoadEffect(s, i, s.workers[i], s.secret))
  {
    var p := s.workers[i];
    assert PassSafe(s, p) && PassOk(s, p);
    LoadKeeps(s, i, s.secret);
    if s.secret.Some? && s.secret.value.gen > p.obj.gen {
      EndPassSafe(s, s, i, Failed(true));
    } else {
      SetPassSafe(s, i, p.(pc := Loaded, cfg := p.obj.spec, stack := Stack(ContentOf(s.secret), s.secret)));
    }
  }

  lemma StartSafe(a: Assumptions, s: State, i: nat, view: Object)
    requires CoreSafe(s) && s.workers == map[] && view in s.seenObjs
    ensures CoreSafe(SetPass(s, i, NewPass(view)))
  {
    SetPassKeeps(s, i, NewPass(view));
    SetPassSafe(s, i, NewPass(view));
  }

  /** The steps that only move the pass on. */
  predicate Internal(step: PassStep) {
    step.SkipFinalizer? || step.Preview? || step.SkipDeploy? || step.Deploy? || step.Succeed?
  }

  lemma MoveSafe(a: Assumptions, s: State, i: nat, step: PassStep)
    requires CoreSafe(s) && AllHold(a) && Internal(step) && PassEnabled(a, s, i, step)
    ensures CoreSafe(PassEffect(a, s, i, step))
  {
    var p := s.workers[i];
    assert PassSafe(s, p);
    PassKeeps(a, s, i, step);
    SetPassSafe(s, i, PassEffect(a, s, i, step).workers[i]);
  }

  lemma PassSteps(a: Assumptions, s: State, i: nat, step: PassStep)
    requires CoreSafe(s) && AllHold(a) && PassEnabled(a, s, i, step)
    ensures CoreSafe(PassEffect(a, s, i, step))
  {
    match step
    case NotFound => EndPassKeeps(s, i, Quiet(Gone, false));
    case Start(view) => StartSafe(a, s, i, view);
    case AddFinalizer(reply) => AddSafe(s, i, reply);
    case SkipFinalizer => MoveSafe(a, s, i, step);
    case Load(view) => LoadSafe(s, i);
    case Preview(_) => MoveSafe(a, s, i, step);
    case Report(reply) => StatusSafe(a, s, i, reply, Reported);
    case SkipDeploy => MoveSafe(a, s, i, step);
    case Deploy => MoveSafe(a, s, i, step);
    case Succeed => MoveSafe(a, s, i, step);
    case ReportDeployed(reply) => StatusSafe(a, s, i, reply, Finalizing);
    case Finish => EndPassSafe(s, s, i, if s.workers[i].changes then Progress else Quiet(Unchanged, false));
    case RemoveFinalizer(reply) => RemoveSafe(s, i, reply);
    case Abort(requeue) => EndPassSafe(s, s, i, Failed(requeue));
    case Crash => EndPassSafe(s, s, i, Crashed);
  }

  // ----- who moves -----

  predicate ActorIs(act: Action, i: nat) {
    match act case Env(_) => false case InPass(j, _) => i == j case InEngine(j, _) => i == j
  }

  ghost predicate SamePass(s: State, t: State, i: nat) {
    (i in t.workers <==> i in s.workers) && (i in s.workers ==> t.workers[i] == s.workers[i])
  }

  lemma EnvLeavesPasses(a: Assumptions, s: State, e: EnvStep)
    requires EnvEnabled(a, s, e)
    ensures EnvEffect(a, s, e).workers == s.workers
  {
  }

  lemma OtherPassLeavesPass(a: Assumptions, s: State, j: nat, step: PassStep, i: nat)
    requires PassEnabled(a, s, j, step) && i != j
    ensures SamePass(s, PassEffect(a, s, j, step), i)
  {
  }

  lemma OtherEngineLeavesPass(s: State, j: nat, e: EngineStep, i: nat)
    requires j in s.workers && i != j
    ensures SamePass(s, EngineEffect(s, j, e), i)
  {
  }

  lemma OthersLeavePass(a: Assumptions, s: State, act: Action, t: State, i: nat)
    requires Next(a, s, act, t) && !ActorIs(act, i)
    ensures SamePass(s, t, i)
  {
    match act
    case Env(e) => EnvLeavesPasses(a, s, e);
    case InPass(j, step) => OtherPassLeavesPass(a, s, j, step, i);
    case InEngine(j, e) => OtherEngineLeavesPass(s, j, e, i);
  }

  // ----- late writes -----

  /** What keeps late writes harmless from one state to the next. */
  lemma LatesStay(s: State, t: State)
    requires HistoryOk(s) && LatesSafe(s) && forall w | w in t.late :: w in s.late || LateSafe(t, w)
    requires t.obj == s.obj || t.obj.None? || t.obj.value.rv > s.clock
    requires t.obj == s.obj && Unfenced(s) ==> Unfenced(t)
    requires t.live + t.inflight <= s.live + s.inflight + Armed(s)
    requires t.secret == s.secret || (t.secret.Some? && t.secret.value.rv > s.clock) ||
             (t.secret.None? && s.live + s.inflight == {} && Armed(s) == {})
    requires t.secret.None? || t.secret == s.secret ==> Armed(t) <= Armed(s)
    ensures LatesSafe(t)
  {
    forall w | w in t.late ensures LateSafe(t, w) {
      if w in s.late {
        assert LateOk(s, w) && LateSafe(s, w);
        if w.FinalizerWrite? && Unfenced(s) { assert Armed(s) == {}; }
      }
    }
  }

  /** Only worker i's pass changes, and not into an engine at work with more armed. */
  lemma ArmedStays(s: State, t: State, i: nat)
    requires forall j | j in t.workers && j != i :: j in s.workers && t.workers[j] == s.workers[j]
    requires i in t.workers && t.workers[i].pc == Deploying ==>
               t.workers[i].armed == {} ||
               (i in s.workers && s.workers[i].pc == Deploying && t.workers[i].armed <= s.workers[i].armed)
    ensures Armed(t) <= Armed(s)
  {
    forall r | r in Armed(t) ensures r in Armed(s) {
      var j :| j in t.workers && t.workers[j].pc == Deploying && r in t.workers[j].armed;
      assert j in s.workers && s.workers[j].pc == Deploying && r in s.workers[j].armed;
    }
  }

  /** Without the object no engine has anything armed. */
  lemma GoneIsUnarmed(s: State)
    requires CoreSafe(s) && s.obj.None?
    ensures Armed(s) == {} && s.live + s.inflight == {}
  {
    forall i | i in s.workers && s.workers[i].pc == Deploying ensures s.workers[i].armed == {} {
      assert PassSafe(s, s.workers[i]);
    }
  }

  /** What a step of the environment does to what late writes depend on. */
  lemma EnvShape(a: Assumptions, s: State, e: EnvStep)
    requires EnvEnabled(a, s, e)
    ensures var t := EnvEffect(a, s, e);
            && t.workers == s.workers && t.late <= s.late && t.live + t.inflight <= s.live + s.inflight
            && (t.obj == s.obj || t.obj.None? || t.obj.value.rv > s.clock)
            && (t.secret == s.secret || (t.secret.Some? && t.secret.value.rv > s.clock) ||
                (t.secret.None? && e.CollectSecret?))
  {
  }

  lemma EnvLates(a: Assumptions, s: State, e: EnvStep)
    requires SafeOk(s) && AllHold(a) && EnvEnabled(a, s, e)
    ensures LatesSafe(EnvEffect(a, s, e))
  {
    var t := EnvEffect(a, s, e);
    EnvShape(a, s, e);
    assert Armed(t) == Armed(s);
    if e.CollectSecret? { GoneIsUnarmed(s); }
    LatesStay(s, t);
  }

  /** A save without an answer accounts for everything, whenever it comes. */
  lemma SentSaveSafe(a: Assumptions, s: State, i: nat, e: EngineStep)
    requires SafeOk(s) && AllHold(a) && i in s.workers && EngineAllowed(a, s, s.workers[i], e)
    requires IsSave(e) && e.reply.Refused?
    ensures var p, t := s.workers[i], EngineEffect(s, i, e);
            && t.late == s.late + {SecretWrite(p.obj, p.stack, MemAfter(p.mem, e))}
            && LateSafe(t, SecretWrite(p.obj, p.stack, MemAfter(p.mem, e)))
  {
    var p, t := s.workers[i], EngineEffect(s, i, e);
    assert PassSafe(s, p) && AtMostOne(s);
    MemStillCovers(a, s, p, e);
    forall r | r in Armed(t) ensures r in t.workers[i].armed { }
  }

  lemma EngineLates(a: Assumptions, s: State, i: nat, e: EngineStep)
    requires SafeOk(s) && AllHold(a) && i in s.workers && EngineAllowed(a, s, s.workers[i], e)
    ensures LatesSafe(EngineEffect(s, i, e))
  {
    var t := EngineEffect(s, i, e);
    assert !Unfenced(s);
    assert forall r | r in s.workers[i].armed :: r in Armed(s);
    if IsSave(e) && e.reply.Refused? { SentSaveSafe(a, s, i, e); }
    if t.secret == s.secret || !IsSave(e) { ArmedStays(s, t, i); }
    LatesStay(s, t);
  }

  /** What a step leaves on the way. */
  function Sent(p: Pass, step: PassStep): set<Request> {
    match step
    case AddFinalizer(reply) => if reply.Refused? then {FinalizerWrite(p.obj, true)} else {}
    case Report(reply) => if reply.Refused? then {StatusWrite(p.obj)} else {}
    case ReportDeployed(reply) => if reply.Refused? then {StatusWrite(p.obj)} else {}
    case RemoveFinalizer(reply) => if reply.Refused? then {FinalizerWrite(p.obj, false)} else {}
    case _ => {}
  }

  /** What a step of a pass does outside it: at most one write of the object, which gets a new version. */
  lemma PassShape(a: Assumptions, s: State, i: nat, step: PassStep)
    requires PassEnabled(a, s, i, step)
    ensures var t := PassEffect(a, s, i, step);
            && t.secret == s.secret && t.live == s.live && t.inflight == s.inflight
            && (t.obj == s.obj || t.obj.None? || t.obj.value.rv > s.clock)
  {
  }

  lemma PassSends(a: Assumptions, s: State, i: nat, step: PassStep)
    requires PassEnabled(a, s, i, step)
    ensures var t := PassEffect(a, s, i, step);
            && t.late == s.late + (if i in s.workers then Sent(s.workers[i], step) else {})
            && (i in s.workers && Sent(s.workers[i], step) != {} ==> t.obj == s.obj && t.workers == s.workers - {i})
  {
  }

  /** A write of the object without an answer is harmless, whenever it comes. */
  lemma SentWriteSafe(a: Assumptions, s: State, i: nat, step: PassStep)
    requires SafeOk(s) && AllHold(a) && PassEnabled(a, s, i, step) && i in s.workers
    ensures forall w | w in Sent(s.workers[i], step) :: LateSafe(PassEffect(a, s, i, step), w)
  {
    var t := PassEffect(a, s, i, step);
    PassShape(a, s, i, step);
    PassSends(a, s, i, step);
    if Sent(s.workers[i], step) != {} { assert AtMostOne(s) && t.workers == map[]; }
    if step.RemoveFinalizer? && Current(s, s.workers[i].obj) { RemovalFindsNothing(s, i); }
  }

  lemma PassLates(a: Assumptions, s: State, i: nat, step: PassStep)
    requires SafeOk(s) && AllHold(a) && PassEnabled(a, s, i, step)
    ensures LatesSafe(PassEffect(a, s, i, step))
  {
    var t := PassEffect(a, s, i, step);
    PassShape(a, s, i, step);
    PassSends(a, s, i, step);
    if i in s.workers { SentWriteSafe(a, s, i, step); }
    EntersDeploying(a, s, i, step);
    forall j | j in t.workers && j != i ensures j in s.workers && t.workers[j] == s.workers[j] {
      OtherPassLeavesPass(a, s, i, step, j);
    }
    ArmedStays(s, t, i);
    LatesStay(s, t);
  }

  /** A pass comes to a deployment with nothing armed, and past its fence only by a write of the object. */
  lemma EntersDeploying(a: Assumptions, s: State, i: nat, step: PassStep)
    requires PassEnabled(a, s, i, step)
    ensures var t := PassEffect(a, s, i, step);
            && (i in t.workers && t.workers[i].pc == Deploying ==> t.workers[i].armed == {})
            && (i in t.workers && t.workers[i].pc !in {Fetched, Guarded, Loaded, Previewed} ==>
                  t.obj != s.obj || (i in s.workers && s.workers[i].pc !in {Fetched, Guarded, Loaded, Previewed}) ||
                  (t.obj.Some? && s.obj.Some? && t.obj.value.rv == s.clock + 1))
  {
  }

  lemma StepLates(a: Assumptions, s: State, act: Action, t: State)
    requires SafeOk(s) && AllHold(a) && Next(a, s, act, t)
    ensures LatesSafe(t)
  {
    match act
    case Env(e) => EnvLates(a, s, e);
    case InEngine(i, e) => EngineLates(a, s, i, e);
    case InPass(i, step) => PassLates(a, s, i, step);
  }

  lemma StepSafe(a: Assumptions, s: State, act: Action, t: State)
    requires SafeOk(s) && AllHold(a) && Next(a, s, act, t)
    ensures SafeOk(t)
  {
    StepLates(a, s, act, t);
    match act
    case Env(e) => EnvSafe(a, s, e);
    case InPass(i, step) => PassSteps(a, s, i, step);
    case InEngine(i, e) => EngineSafe(a, s, i, e);
  }

  lemma RunSafe(a: Assumptions, x: Execution, k: nat)
    requires IsExecution(a, x) && AllHold(a) && SafeOk(x.states[0]) && k <= |x.acts|
    ensures SafeOk(x.states[k])
  {
    var inv := s => SafeOk(s);
    forall j: nat | j < k ensures KeptAt(x, inv, j) {
      assert Next(a, x.states[j], x.acts[j], x.states[j + 1]);
      if inv(x.states[j]) { StepSafe(a, x.states[j], x.acts[j], x.states[j + 1]); }
    }
    AllAlong(x, inv, k);
  }

  lemma ReachableSafe(a: Assumptions, s: State)
    requires AllHold(a) && Reachable(a, s)
    ensures SafeOk(s)
  {
    var x :| IsExecution(a, x) && Starts(x) && x.states[|x.acts|] == s;
    RunSafe(a, x, |x.acts|);
  }

  // ----- the fence, for any number of workers -----

  /** Only an answered preview status write brings a pass to the point before a deployment. */
  lemma EntersReported(a: Assumptions, s: State, i: nat, step: PassStep)
    requires PassEnabled(a, s, i, step)
    requires var t := PassEffect(a, s, i, step); i in t.workers && t.workers[i].pc == Reported
    ensures step == Report(Acked) && i in s.workers
  {
  }

  lemma ReportPassesFence(a: Assumptions, s: State, i: nat)
    requires HistoryOk(s) && a.checkedStatus && PassEnabled(a, s, i, Report(Acked))
    requires i in PassEffect(a, s, i, Report(Acked)).workers
    ensures s.obj == Some(s.workers[i].obj)
    ensures var p := s.workers[i];
            PassEffect(a, s, i, Report(Acked)).workers[i] ==
            p.(pc := Reported, fence := p.obj, obj := p.obj.(rv := s.clock + 1, observed := p.obj.gen))
  {
    assert PassOk(s, s.workers[i]);
  }

  lemma EngineKeepsPc(a: Assumptions, s: State, i: nat, e: EngineStep)
    requires i in s.workers && EngineAllowed(a, s, s.workers[i], e)
    ensures i in EngineEffect(s, i, e).workers && EngineEffect(s, i, e).workers[i].pc == Deploying
  {
  }

  /** The pass stands before its deployment because its preview status write was just answered: the server
      held exactly its local object, and the refresh changed only the version and the observed generation. */
  ghost predicate PassedFence(s: State, act: Action, t: State, i: nat) {
    && act == InPass(i, Report(Acked))
    && i in s.workers && i in t.workers
    && s.obj == Some(s.workers[i].obj)
    && var p, q := s.workers[i], t.workers[i];
    q == p.(pc := Reported, fence := p.obj, obj := p.obj.(rv := q.obj.rv, observed := p.obj.gen))
  }

  lemma ReportedStep(a: Assumptions, s: State, act: Action, t: State, i: nat)
    requires HistoryOk(s) && a.checkedStatus && Next(a, s, act, t)
    requires i in t.workers && t.workers[i].pc == Reported
    ensures if ActorIs(act, i) then PassedFence(s, act, t, i) else SamePass(s, t, i)
  {
    if !ActorIs(act, i) {
      OthersLeavePass(a, s, act, t, i);
    } else {
      match act
      case InPass(_, step) => EntersReported(a, s, i, step); ReportPassesFence(a, s, i);
      case InEngine(_, e) => EngineKeepsPc(a, s, i, e);
    }
  }

  /** If the pass stands before its deployment, either it has just passed the fence or it stood there before. */
  ghost predicate FenceStep(s: State, act: Action, t: State, i: nat) {
    i in t.workers && t.workers[i].pc == Reported ==>
      if ActorIs(act, i) then PassedFence(s, act, t, i) else SamePass(s, t, i)
  }

  lemma ReportedAlong(a: Assumptions, x: Execution, k: nat, i: nat)
    requires IsExecution(a, x) && HistoryOk(x.states[0]) && a.checkedStatus && k < |x.acts|
    ensures FenceStep(x.states[k], x.acts[k], x.states[k + 1], i)
  {
    RunKeeps(a, x, k);
    var t := x.states[k + 1];
    if i in t.workers && t.workers[i].pc == Reported { ReportedStep(a, x.states[k], x.acts[k], t, i); }
  }

  lemma {:induction false} FenceBefore(x: Execution, k: nat, i: nat) returns (j: nat)
    requires |x.states| == |x.acts| + 1 && k <= |x.acts| && x.states[0].workers == map[]
    requires forall m {:trigger x.acts[m]} | 0 <= m < k :: FenceStep(x.states[m], x.acts[m], x.states[m + 1], i)
    requires i in x.states[k].workers && x.states[k].workers[i].pc == Reported
    ensures j < k && PassedFence(x.states[j], x.acts[j], x.states[j + 1], i)
    ensures x.states[k].workers[i] == x.states[j + 1].workers[i]
    ensures forall m | j < m < k :: !ActorIs(x.acts[m], i)
    decreases k
  {
    assert k > 0;
    if ActorIs(x.acts[k - 1], i) {
      j := k - 1;
    } else {
      j := FenceBefore(x, k - 1, i);
    }
  }

  /** Fencing: whatever the number of workers and however stale their reads, a deployment starts only in a
      pass whose preview status write was answered while the server held exactly the worker's local object;
      nothing of the pass changed between that write and the deployment. */
  lemma DeploymentIsFenced(a: Assumptions, x: Execution, k: nat, i: nat) returns (j: nat)
    requires IsExecution(a, x) && Reachable(a, x.states[0]) && a.checkedStatus && k <= |x.acts|
    requires x.states[0].workers == map[]
    requires i in x.states[k].workers && x.states[k].workers[i].pc == Reported
    ensures j < k && PassedFence(x.states[j], x.acts[j], x.states[j + 1], i)
    ensures x.states[k].workers[i] == x.states[j + 1].workers[i]
    ensures forall m | j < m < k :: !ActorIs(x.acts[m], i)
  {
    ReachableKeeps(a, x.states[0]);
    forall m {:trigger x.acts[m]} | 0 <= m < k ensures FenceStep(x.states[m], x.acts[m], x.states[m + 1], i) {
      ReportedAlong(a, x, m, i);
    }
    j := FenceBefore(x, k, i);
  }

  // ----- main results -----

  /** Orphan freedom: once the object is gone, nothing is live and nothing is in flight; and while it
      lacks the controller's finalizer the same holds. */
  lemma OrphanFreedom(a: Assumptions, s: State)
    requires AllHold(a) && Reachable(a, s)
    requires s.obj.None? || !s.obj.value.finalizer
    ensures s.live == {} && s.inflight == {}
  {
    ReachableSafe(a, s);
  }

  /** The Secret always accounts for every live resource. */
  lemma SecretRecordsLive(a: Assumptions, s: State)
    requires AllHold(a) && Reachable(a, s)
    ensures s.secret.None? ==> s.live == {} && s.inflight == {}
    ensures s.secret.Some? ==>
              var c := s.secret.value.content; s.live + s.inflight <= c.resources + c.creating + c.removing
  {
    ReachableSafe(a, s);
  }

  /** Every snapshot the engine hands to a save still accounts for all that is live or in flight, whether
      or not the save is answered. */
  lemma SavedSnapshotCovers(a: Assumptions, s: State, i: nat, e: EngineStep)
    requires AllHold(a) && Reachable(a, s) && i in s.workers && EngineAllowed(a, s, s.workers[i], e)
    ensures s.live + s.inflight <= Covered(MemAfter(s.workers[i].mem, e))
  {
    ReachableSafe(a, s);
    assert PassSafe(s, s.workers[i]);
    MemStillCovers(a, s, s.workers[i], e);
  }

  /** Only the collector removes the Secret. */
  lemma SecretOnlyCollected(a: Assumptions, s: State, act: Action, t: State)
    requires Next(a, s, act, t) && s.secret.Some? && t.secret.None?
    ensures act == Env(CollectSecret)
  {
    match act
    case Env(e) => EnvKeepsSecret(a, s, e);
    case InPass(i, step) => PassKeepsSecret(a, s, i, step);
    case InEngine(i, e) =>
  }

  lemma SecretLossLeavesNoOwner(a: Assumptions, s: State, act: Action, t: State)
    requires AllHold(a) && Next(a, s, act, t) && t.secret.None? && (s.secret.Some? || s.obj.None?)
    ensures t.obj.None?
  {
    if s.secret.Some? { SecretOnlyCollected(a, s, act, t); } else { ObjectStaysGone(a, s, act, t); }
  }

  lemma GoneAlong(a: Assumptions, x: Execution, k: nat)
    requires IsExecution(a, x) && AllHold(a) && Reachable(a, x.states[0]) && k <= |x.acts| && x.states[k].obj.None?
    ensures x.states[k].live == {}
  {
    ReachableSafe(a, x.states[0]);
    RunSafe(a, x, k);
  }

  /** State survival: a Secret that disappears had no owner left and no resource to account for, so
      while the object exists a Secret once created stays. */
  lemma {:induction false} SecretSurvives(a: Assumptions, x: Execution, j: nat, k: nat)
    requires IsExecution(a, x) && AllHold(a) && Reachable(a, x.states[0]) && j <= k <= |x.acts|
    requires x.states[j].secret.Some? && x.states[k].secret.None?
    ensures x.states[k].obj.None? && x.states[k].live == {}
    decreases k
  {
    if x.states[k - 1].secret.None? { SecretSurvives(a, x, j, k - 1); }
    SecretLossLeavesNoOwner(a, x.states[k - 1], x.acts[k - 1], x.states[k]);
    GoneAlong(a, x, k);
  }

  // ----- one goal per pass, for any number of workers -----

  /** Since its preview the pass keeps one operation and one configuration, those of the object at the fence. */
  predicate OneGoal(p: Pass) {
    && (p.pc != Fetched && p.pc != Guarded ==> p.cfg == p.obj.spec)
    && (p.pc != Fetched && p.pc != Guarded && p.pc != Loaded ==> p.previewOp == OpFor(p.obj))
    && (p.pc in {Reported, Deploying, Deployed, Finalizing} ==>
          p.fence.spec == p.obj.spec && p.fence.deleting == p.obj.deleting)
    && (p.pc == Deploying || p.pc == Deployed ==> p.changes)
    && (p.pc in {Deploying, Deployed, Finalizing} && p.changes ==> p.op == OpFor(p.obj))
  }

  ghost predicate GoalsOk(s: State) {
    forall i | i in s.workers :: OneGoal(s.workers[i])
  }

  lemma StatusKeepsGoal(s: State, i: nat, reply: Reply, next: Pc)
    requires HistoryOk(s) && i in s.workers && OneGoal(s.workers[i])
    requires reply.Refused? || Current(s, s.workers[i].obj)
    requires (s.workers[i].pc == Previewed && next == Reported) || (s.workers[i].pc == Deployed && next == Finalizing)
    ensures var t := WriteStatus(s, i, s.workers[i], reply, next); i in t.workers ==> OneGoal(t.workers[i])
  {
    assert PassOk(s, s.workers[i]);
  }

  lemma PassKeepsGoal(a: Assumptions, s: State, i: nat, step: PassStep)
    requires HistoryOk(s) && GoalsOk(s) && a.checkedStatus && PassEnabled(a, s, i, step)
    ensures var t := PassEffect(a, s, i, step); i in t.workers ==> OneGoal(t.workers[i])
  {
    assert i in s.workers ==> OneGoal(s.workers[i]);
    match step
    case Report(reply) => StatusKeepsGoal(s, i, reply, Reported);
    case ReportDeployed(reply) => StatusKeepsGoal(s, i, reply, Finalizing);
    case _ =>
  }

  lemma EngineKeepsGoal(a: Assumptions, s: State, i: nat, e: EngineStep)
    requires GoalsOk(s) && i in s.workers && EngineAllowed(a, s, s.workers[i], e)
    ensures i in EngineEffect(s, i, e).workers && OneGoal(EngineEffect(s, i, e).workers[i])
  {
    assert OneGoal(s.workers[i]);
  }

  lemma StepKeepsGoals(a: Assumptions, s: State, act: Action, t: State)
    requires HistoryOk(s) && GoalsOk(s) && a.checkedStatus && Next(a, s, act, t)
    ensures GoalsOk(t)
  {
    forall i | i in t.workers ensures OneGoal(t.workers[i]) {
      if !ActorIs(act, i) {
        OthersLeavePass(a, s, act, t, i);
      } else {
        match act
        case InPass(_, step) => PassKeepsGoal(a, s, i, step);
        case InEngine(_, e) => EngineKeepsGoal(a, s, i, e);
      }
    }
  }

  lemma RunKeepsGoals(a: Assumptions, x: Execution, k: nat)
    requires IsExecution(a, x) && HistoryOk(x.states[0]) && GoalsOk(x.states[0]) && a.checkedStatus && k <= |x.acts|
    ensures GoalsOk(x.states[k])
  {
    var inv := s => GoalsOk(s);
    forall j: nat | j < k ensures KeptAt(x, inv, j) {
      assert Next(a, x.states[j], x.acts[j], x.states[j + 1]);
      RunKeeps(a, x, j);
      if inv(x.states[j]) { StepKeepsGoals(a, x.states[j], x.acts[j], x.states[j + 1]); }
    }
    AllAlong(x, inv, k);
  }

  lemma ReachableGoals(a: Assumptions, s: State)
    requires a.checkedStatus && Reachable(a, s)
    ensures GoalsOk(s)
  {
    var x :| IsExecution(a, x) && Starts(x) && x.states[|x.acts|] == s;
    RunKeepsGoals(a, x, |x.acts|);
  }

  /** With any number of workers and however stale their reads: a pass that may drop the finalizer previewed a
      Destroy and, if it deployed, deployed a Destroy; the deletion was already requested when its status write
      passed the fence. */
  lemma RemovalOnlyAfterDestroy(a: Assumptions, s: State, i: nat, reply: Reply)
    requires a.checkedStatus && Reachable(a, s) && PassEnabled(a, s, i, RemoveFinalizer(reply))
    ensures s.workers[i].previewOp == Destroy && (s.workers[i].changes ==> s.workers[i].op == Destroy)
    ensures s.workers[i].fence.deleting
  {
    ReachableGoals(a, s);
    assert OneGoal(s.workers[i]);
  }

  /** With any number of workers, preview and deployment of one pass agree on the operation and the configuration,
      both taken from what the server held at the fence, and on the snapshot they start from; and that is the stored
      one, or no save of the pass can land. */
  lemma PreviewMatchesDeployment(a: Assumptions, s: State, i: nat)
    requires a.checkedStatus && Reachable(a, s) && PassEnabled(a, s, i, Deploy)
    ensures var p := s.workers[i]; var q := PassEffect(a, s, i, Deploy).workers[i];
            && q.op == p.previewOp == OpFor(p.fence) && q.cfg == p.fence.spec
            && q.mem == Base(p.stack.snap)
            && (MayLand(s.secret, q.stack.handle) ==> q.mem == Recorded(s.secret))
  {
    ReachableGoals(a, s);
    assert OneGoal(s.workers[i]);
    if MayLand(s.secret, s.workers[i].stack.handle) { AcceptedHandleIsCurrent(a, s, i); }
  }

  /** Which steps return a quiet result. */
  lemma QuietSteps(a: Assumptions, s: State, i: nat, step: PassStep, why: Reason, deployed: bool)
    requires PassEnabled(a, s, i, step)
    requires PassEffect(a, s, i, step).results == s.results + [Quiet(why, deployed)]
    ensures match why
            case Gone => step == NotFound && !deployed
            case Unchanged => step == Finish && i in s.workers && !s.workers[i].changes && !deployed
            case Finalized => step == RemoveFinalizer(Acked)
  {
    assert PassEffect(a, s, i, step).results[|s.results|] == Quiet(why, deployed);
  }

  lemma UnchangedIsSound(a: Assumptions, s: State, i: nat)
    requires AllHold(a) && Reachable(a, s) && PassEnabled(a, s, i, Finish) && !s.workers[i].changes
    ensures var p := s.workers[i];
            && Clean(Base(p.stack.snap), Target(OpFor(p.fence), p.fence.spec))
            && s.live <= Target(OpFor(p.fence), p.fence.spec)
            && !(p.obj.deleting && p.obj.finalizer)
  {
    ReachableSafe(a, s);
    assert PassSafe(s, s.workers[i]) && PassOk(s, s.workers[i]);
  }

  /** Where the removal of the finalizer lands, nothing is live or in flight, and the Secret accounts for nothing
      unless a late save overtook the pass. */
  lemma RemovalIsClean(a: Assumptions, s: State, i: nat, reply: Reply)
    requires AllHold(a) && Reachable(a, s) && PassEnabled(a, s, i, RemoveFinalizer(reply)) && !reply.Refused?
    ensures s.live == {} && s.inflight == {}
    ensures s.secret == s.workers[i].stack.handle ==> Covered(Recorded(s.secret)) == {}
    ensures !HasFinalizer(PassEffect(a, s, i, RemoveFinalizer(reply)))
  {
    ReachableSafe(a, s);
    RemovalFindsNothing(s, i);
    PutFinalizer(s, i, false);
  }

  lemma FinalizedIsSound(a: Assumptions, s: State, i: nat)
    requires AllHold(a) && Reachable(a, s) && PassEnabled(a, s, i, RemoveFinalizer(Acked))
    ensures var t := PassEffect(a, s, i, RemoveFinalizer(Acked));
            !HasFinalizer(t) && t.live == {} && t.inflight == {}
  {
    RemovalIsClean(a, s, i, Acked);
  }

  /** Result soundness: a pass that returns no error and no requeue found the object gone, or previewed no
      change for what the server held at the fence, leaves nothing live beyond that target and has no finalizer to
      drop, or dropped the finalizer with nothing live. Only in the last case can its preview have reported changes. */
  lemma QuietResultIsSound(a: Assumptions, s: State, i: nat, step: PassStep, why: Reason, deployed: bool)
    requires AllHold(a) && Reachable(a, s) && PassEnabled(a, s, i, step)
    requires PassEffect(a, s, i, step).results == s.results + [Quiet(why, deployed)]
    ensures deployed ==> why == Finalized
    ensures why == Gone ==> s.obj.None?
    ensures why == Unchanged ==>
              && i in s.workers
              && var p := s.workers[i];
              && Clean(Base(p.stack.snap), Target(OpFor(p.fence), p.fence.spec))
              && s.live <= Target(OpFor(p.fence), p.fence.spec)
              && !(p.obj.deleting && p.obj.finalizer)
    ensures why == Finalized ==>
              var t := PassEffect(a, s, i, step);
              !HasFinalizer(t) && t.live == {} && t.inflight == {}
  {
    QuietSteps(a, s, i, step, why, deployed);
    match why
    case Gone =>
    case Unchanged => UnchangedIsSound(a, s, i);
    case Finalized => FinalizedIsSound(a, s, i);
  }
}
