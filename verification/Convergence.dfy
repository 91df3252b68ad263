/** Convergence of the requeue loop once the object's specification and deletion stop changing: passes read
    the current object, previews report exactly the outstanding difference, and anything else may still go
    wrong. */
module Convergence {
  import opened Options
  import opened Store
  import opened Protocol
  import opened History
  import opened Safety

  // ----- calm runs -----

  /** A step while nobody edits the specification or requests the deletion. Other metadata writes, lost
      replies, refusals, errors, bails, crashes and late writes all remain possible. */
  predicate CalmStep(s: State, act: Action) {
    match act
    case Env(e) =>
      !e.EditSpec? && !e.StripFinalizer? && (e.RequestDeletion? ==> s.obj.Some? && s.obj.value.deleting)
    case InPass(i, step) =>
      && (step.Start? ==> s.obj == Some(step.view))
      && (step.Preview? && step.changes && i in s.workers ==> Outstanding(s.workers[i]))
    case InEngine(_, _) => true
  }

  /** The pass's snapshot is not what its object asks for. */
  predicate Outstanding(p: Pass) { !Clean(Base(p.stack.snap), Target(OpFor(p.obj), p.cfg)) }

  ghost predicate CalmSteps(a: Assumptions, x: Execution) {
    && AllHold(a) && IsExecution(a, x)
    && forall k {:trigger x.acts[k]} | 0 <= k < |x.acts| :: CalmStep(x.states[k], x.acts[k])
  }

  ghost predicate CalmRun(a: Assumptions, x: Execution) {
    CalmSteps(a, x) && Reachable(a, x.states[0]) && x.states[0].workers == map[]
  }

  /** The results returned since the run began. */
  function Since(x: Execution): seq<PassResult>
    requires |x.states| > 0
  {
    var from, rs := |x.states[0].results|, x.states[|x.states| - 1].results;
    if from <= |rs| then rs[from..] else []
  }

  datatype Kind = Quiets | Progresses | Failures

  function KindOf(r: PassResult): Kind {
    match r
    case Quiet(_, _) => Quiets
    case Progress => Progresses
    case Failed(_) => Failures
    case Crashed => Failures
  }

  /** How many of the results are of a kind. */
  function Count(rs: seq<PassResult>, kind: Kind): nat {
    if rs == [] then 0 else Count(rs[..|rs| - 1], kind) + if KindOf(rs[|rs| - 1]) == kind then 1 else 0
  }

  // ----- invariant -----

  predicate UpToDate(s: State, p: Pass) {
    s.obj.Some? ==> p.obj.spec == s.obj.value.spec && p.obj.deleting == s.obj.value.deleting
  }

  /** No late save can land any more. */
  ghost predicate AllDead(s: State) {
    s.obj.Some? ==> forall w | w in s.late && w.SecretWrite? :: !MayLand(s.secret, w.stack.handle)
  }

  predicate InSync(s: State, p: Pass) { s.obj.Some? ==> p.stack.handle == s.secret }

  /** A deployment that changes anything saves at least once, and its answered save leaves every late one behind. */
  ghost predicate OnCourse(s: State, p: Pass) {
    && ((p.pc == Previewed || p.pc == Reported) && p.changes ==> Outstanding(p))
    && (p.pc == Deploying && !p.saveFailed ==> Outstanding(p) || (AllDead(s) && InSync(s, p)))
    && (p.pc == Deployed || (p.pc == Finalizing && p.changes) ==> AllDead(s) && InSync(s, p))
  }

  ghost predicate Calm(s: State) {
    forall i | i in s.workers :: UpToDate(s, s.workers[i]) && OnCourse(s, s.workers[i])
  }

  /** The Secret records exactly what the object asks for. */
  predicate Settled(s: State) {
    s.obj.Some? ==> Clean(Recorded(s.secret), Target(OpFor(s.obj.value), s.obj.value.spec))
  }

  /** The pass is not on the way to another deployment. */
  predicate NoDeploy(s: State, p: Pass) {
    && (p.pc == Loaded ==> InSync(s, p))
    && (p.pc == Previewed ==> !p.changes || s.obj.None?)
    && (p.pc == Reported || p.pc == Finalizing ==> !p.changes)
    && p.pc != Deploying && p.pc != Deployed
  }

  ghost predicate AfterProgress(s: State) {
    Settled(s) && AllDead(s) && forall i | i in s.workers :: NoDeploy(s, s.workers[i])
  }

  ghost predicate CalmOk(s: State, from: nat) {
    && SafeOk(s) && from <= |s.results|
    && Calm(s)
    && Count(s.results[from..], Progresses) <= 1
    && (Count(s.results[from..], Progresses) == 1 ==> AfterProgress(s))
  }

  // ----- one step -----

  /** The invariants carry over. */
  ghost predicate Carries(s: State, t: State) { Calm(t) && (AfterProgress(s) ==> AfterProgress(t)) }

  /** A write that keeps the goal keeps everything. */
  lemma CommitIsCalm(s: State, o: Object)
    requires Calm(s) && s.obj.Some? && o.spec == s.obj.value.spec && o.deleting == s.obj.value.deleting
    ensures Carries(s, Commit(s, o))
  {
    var t := Commit(s, o);
    forall i | i in t.workers ensures UpToDate(t, t.workers[i]) && OnCourse(t, t.workers[i]) {
      assert UpToDate(s, s.workers[i]) && OnCourse(s, s.workers[i]);
    }
    if AfterProgress(s) {
      forall i | i in t.workers ensures NoDeploy(t, t.workers[i]) { assert NoDeploy(s, s.workers[i]); }
    }
  }

  lemma EndIsCalm(s: State, i: nat, r: PassResult)
    requires Calm(s)
    ensures Carries(s, EndPass(s, i, r))
  {
  }

  /** A pass ends with its write of the object on the way. */
  lemma SendEndIsCalm(s: State, i: nat, w: Request, r: PassResult)
    requires Calm(s) && !w.SecretWrite?
    ensures Carries(s, EndPass(Send(s, w), i, r))
  {
    var t := EndPass(Send(s, w), i, r);
    forall j | j in t.workers ensures UpToDate(t, t.workers[j]) && OnCourse(t, t.workers[j]) {
      assert UpToDate(s, s.workers[j]) && OnCourse(s, s.workers[j]);
    }
    if AfterProgress(s) {
      forall j | j in t.workers ensures NoDeploy(t, t.workers[j]) { assert NoDeploy(s, s.workers[j]); }
    }
  }

  lemma MoveIsCalm(s: State, i: nat, q: Pass)
    requires Calm(s) && UpToDate(s, q) && OnCourse(s, q) && (AfterProgress(s) ==> NoDeploy(s, q))
    ensures Carries(s, SetPass(s, i, q))
  {
  }

  /** Fewer late writes, or more time for them to come. */
  lemma LateIsCalm(s: State, w: Request)
    requires Calm(s)
    ensures Carries(s, s.(late := s.late - {w}))
  {
    var t := s.(late := s.late - {w});
    forall i | i in t.workers ensures UpToDate(t, t.workers[i]) && OnCourse(t, t.workers[i]) {
      assert UpToDate(s, s.workers[i]) && OnCourse(s, s.workers[i]);
    }
    if AfterProgress(s) {
      forall i | i in t.workers ensures NoDeploy(t, t.workers[i]) { assert NoDeploy(s, s.workers[i]); }
    }
  }

  /** A late save can land only while no deployment has saved. */
  lemma LateSaveIsCalm(a: Assumptions, s: State, w: Request)
    requires HistoryOk(s) && Calm(s) && w in s.late && w.SecretWrite? && MayLand(s.secret, w.stack.handle)
    ensures Carries(s, Arrived(s.(late := s.late - {w}), w))
  {
    var t := Arrived(s.(late := s.late - {w}), w);
    forall i | i in t.workers ensures UpToDate(t, t.workers[i]) && OnCourse(t, t.workers[i]) {
      assert UpToDate(s, s.workers[i]) && OnCourse(s, s.workers[i]);
    }
    if AfterProgress(s) {
      forall i | i in t.workers ensures NoDeploy(t, t.workers[i]) { assert NoDeploy(s, s.workers[i]); }
    }
  }

  lemma ArriveIsCalm(a: Assumptions, s: State, w: Request)
    requires SafeOk(s) && AllHold(a) && EnvEnabled(a, s, Arrive(w)) && Calm(s)
    ensures Carries(s, EnvEffect(a, s, Arrive(w)))
  {
    assert LateOk(s, w);
    if w.SecretWrite? {
      LateSaveIsCalm(a, s, w);
    } else {
      OwnVersion(s, w.obj);
      LateIsCalm(s, w);
      var s1 := s.(late := s.late - {w});
      CommitIsCalm(s1, if w.StatusWrite? then PutStatus(s.obj.value, w.obj.(observed := w.obj.gen))
                       else Put(s.obj.value, w.obj.(finalizer := w.present)));
    }
  }

  lemma EnvIsCalm(a: Assumptions, s: State, e: EnvStep)
    requires SafeOk(s) && AllHold(a) && EnvEnabled(a, s, e) && CalmStep(s, Env(e)) && Calm(s)
    ensures Carries(s, EnvEffect(a, s, e))
    ensures EnvEffect(a, s, e).results == s.results
  {
    match e
    case SetOtherFinalizers(present) => CommitIsCalm(s, s.obj.value.(otherFinalizers := present));
    case EndForeground => CommitIsCalm(s, s.obj.value.(foreground := false));
    case RequestDeletion(foreground) => CommitIsCalm(s, EnvWrite(s.obj.value, e));
    case Arrive(w) => ArriveIsCalm(a, s, w);
    case _ => QuietEnvIsCalm(a, s, e);
  }

  lemma QuietEnvIsCalm(a: Assumptions, s: State, e: EnvStep)
    requires AllHold(a) && EnvEnabled(a, s, e) && Calm(s) && (e.CollectSecret? || e.Land? || e.Vanish?)
    ensures Carries(s, EnvEffect(a, s, e))
  {
    var t := EnvEffect(a, s, e);
    forall i | i in t.workers ensures UpToDate(t, t.workers[i]) && OnCourse(t, t.workers[i]) {
      assert UpToDate(s, s.workers[i]) && OnCourse(s, s.workers[i]);
    }
    if AfterProgress(s) {
      forall i | i in t.workers ensures NoDeploy(t, t.workers[i]) { assert NoDeploy(s, s.workers[i]); }
    }
  }

  /** An answered save leaves every late one behind. */
  lemma SaveIsCalm(a: Assumptions, s: State, i: nat, e: EngineStep, reply: Reply)
    requires SafeOk(s) && Calm(s) && i in s.workers && s.workers[i].pc == Deploying && SaveOk(s, s.workers[i], reply)
    ensures var t := SaveEffect(s, i, e, reply); UpToDate(t, t.workers[i]) && OnCourse(t, t.workers[i])
  {
    assert UpToDate(s, s.workers[i]);
    var t := SaveEffect(s, i, e, reply);
    forall w | w in t.late && w.SecretWrite? && reply.Acked? ensures !MayLand(t.secret, w.stack.handle) {
      assert LateOk(s, w);
    }
  }

  lemma EngineIsCalm(a: Assumptions, s: State, i: nat, e: EngineStep)
    requires SafeOk(s) && Calm(s) && i in s.workers && EngineAllowed(a, s, s.workers[i], e)
    ensures Calm(EngineEffect(s, i, e)) && !AfterProgress(s)
    ensures EngineEffect(s, i, e).results == s.results
  {
    assert s.workers[i].pc == Deploying && UpToDate(s, s.workers[i]) && OnCourse(s, s.workers[i]);
    assert AtMostOne(s);
    match e
    case IssueCreate(_) =>
    case IssueDelete(_) =>
    case BeginCreate(_, reply) => SaveIsCalm(a, s, i, e, reply);
    case EndCreate(_, _, reply) => SaveIsCalm(a, s, i, e, reply);
    case BeginDelete(_, reply) => SaveIsCalm(a, s, i, e, reply);
    case EndDelete(_, reply) => SaveIsCalm(a, s, i, e, reply);
  }

  lemma LoadIsCalm(a: Assumptions, s: State, i: nat)
    requires SafeOk(s) && i in s.workers && s.workers[i].pc == Guarded && Calm(s)
    ensures Carries(s, LoadEffect(s, i, s.workers[i], s.secret))
  {
    var p := s.workers[i];
    assert UpToDate(s, p);
    if s.secret.Some? && s.secret.value.gen > p.obj.gen { EndIsCalm(s, i, Failed(true)); }
    else { MoveIsCalm(s, i, p.(pc := Loaded, cfg := p.obj.spec, stack := Stack(ContentOf(s.secret), s.secret))); }
  }

  /** A settled Secret makes a faithful preview report no change. */
  lemma PreviewIsCalm(a: Assumptions, s: State, i: nat, changes: bool)
    requires SafeOk(s) && AllHold(a) && PassEnabled(a, s, i, Preview(changes))
    requires Calm(s) && CalmStep(s, InPass(i, Preview(changes)))
    ensures Carries(s, PassEffect(a, s, i, Preview(changes)))
  {
    var p := s.workers[i];
    assert PassSafe(s, p) && PassOk(s, p) && UpToDate(s, p);
    assert AfterProgress(s) ==> NoDeploy(s, p);
    MoveIsCalm(s, i, p.(pc := Previewed, previewOp := OpFor(p.obj), changes := changes));
  }

  lemma StatusIsCalm(a: Assumptions, s: State, i: nat, reply: Reply, next: Pc)
    requires SafeOk(s) && Calm(s) && i in s.workers && (reply.Refused? || Current(s, s.workers[i].obj))
    requires (s.workers[i].pc == Previewed && next == Reported) || (s.workers[i].pc == Deployed && next == Finalizing)
    ensures Carries(s, WriteStatus(s, i, s.workers[i], reply, next))
  {
    var p := s.workers[i];
    assert PassOk(s, p) && UpToDate(s, p) && OnCourse(s, p);
    if reply.Refused? {
      SendEndIsCalm(s, i, StatusWrite(p.obj), Failed(true));
    } else {
      OwnVersion(s, p.obj);
      var o := PutStatus(s.obj.value, p.obj.(observed := p.obj.gen));
      CommitIsCalm(s, o);
      var s1 := Commit(s, o);
      if reply.Lost? || s1.obj.None? { EndIsCalm(s1, i, Failed(true)); }
      else {
        assert AfterProgress(s1) ==> NoDeploy(s1, p);
        MoveIsCalm(s1, i, WriteStatus(s, i, p, reply, next).workers[i]);
      }
    }
  }

  lemma AddIsCalm(s: State, i: nat, reply: Reply)
    requires HistoryOk(s) && Calm(s) && i in s.workers && (reply.Refused? || Current(s, s.workers[i].obj))
    requires s.workers[i].pc == Fetched
    ensures Carries(s, AddEffect(s, i, s.workers[i], reply))
  {
    if reply.Refused? {
      SendEndIsCalm(s, i, FinalizerWrite(s.workers[i].obj, true), Failed(false));
    } else {
      PutFinalizer(s, i, true);
      CommitIsCalm(s, s.obj.value.(finalizer := true));
      var s1 := Commit(s, s.obj.value.(finalizer := true));
      if reply.Lost? || s1.obj.None? { EndIsCalm(s1, i, Failed(false)); }
      else { MoveIsCalm(s1, i, s.workers[i].(pc := Guarded, obj := s1.obj.value)); }
    }
  }

  lemma RemoveIsCalm(s: State, i: nat, reply: Reply)
    requires HistoryOk(s) && Calm(s) && i in s.workers && (reply.Refused? || Current(s, s.workers[i].obj))
    ensures Carries(s, RemoveEffect(s, i, s.workers[i], reply))
  {
    if reply.Refused? {
      SendEndIsCalm(s, i, FinalizerWrite(s.workers[i].obj, false), Failed(false));
    } else {
      PutFinalizer(s, i, false);
      CommitIsCalm(s, s.obj.value.(finalizer := false));
      EndIsCalm(Commit(s, s.obj.value.(finalizer := false)), i,
                if reply.Acked? then Quiet(Finalized, s.workers[i].changes) else Failed(false));
    }
  }

  /** The requeue after a successful deployment leaves the Secret settled, for good. */
  lemma FinishIsCalm(a: Assumptions, s: State, i: nat)
    requires SafeOk(s) && AllHold(a) && PassEnabled(a, s, i, Finish) && Calm(s)
    ensures Carries(s, PassEffect(a, s, i, Finish))
    ensures s.workers[i].changes ==> AfterProgress(PassEffect(a, s, i, Finish))
  {
    var p := s.workers[i];
    assert PassSafe(s, p) && PassOk(s, p) && UpToDate(s, p) && OnCourse(s, p) && AtMostOne(s);
  }

  /** A step that keeps the local object. */
  lemma StandIsCalm(a: Assumptions, s: State, i: nat, step: PassStep)
    requires SafeOk(s) && AllHold(a) && PassEnabled(a, s, i, step) && Calm(s)
    requires step.SkipFinalizer? || step.SkipDeploy? || step.Deploy? || step.Succeed?
    ensures Carries(s, PassEffect(a, s, i, step))
  {
    var p := s.workers[i];
    assert PassSafe(s, p) && UpToDate(s, p) && OnCourse(s, p);
    assert AfterProgress(s) ==> NoDeploy(s, p);
    MoveIsCalm(s, i, PassEffect(a, s, i, step).workers[i]);
  }

  lemma PassIsCalm(a: Assumptions, s: State, i: nat, step: PassStep)
    requires SafeOk(s) && AllHold(a) && PassEnabled(a, s, i, step) && Calm(s) && CalmStep(s, InPass(i, step))
    ensures Carries(s, PassEffect(a, s, i, step))
  {
    match step
    case Load(_) => LoadIsCalm(a, s, i);
    case Preview(changes) => PreviewIsCalm(a, s, i, changes);
    case AddFinalizer(reply) => AddIsCalm(s, i, reply);
    case Report(reply) => StatusIsCalm(a, s, i, reply, Reported);
    case ReportDeployed(reply) => StatusIsCalm(a, s, i, reply, Finalizing);
    case RemoveFinalizer(reply) => RemoveIsCalm(s, i, reply);
    case Finish => FinishIsCalm(a, s, i);
    case NotFound => EndIsCalm(s, i, Quiet(Gone, false));
    case Start(view) => MoveIsCalm(s, i, NewPass(view));
    case SkipFinalizer => StandIsCalm(a, s, i, step);
    case SkipDeploy => StandIsCalm(a, s, i, step);
    case Deploy => StandIsCalm(a, s, i, step);
    case Succeed => StandIsCalm(a, s, i, step);
    case Abort(requeue) => EndIsCalm(s, i, Failed(requeue));
    case Crash => EndIsCalm(s, i, Crashed);

  }

  /** What a step of a pass adds to the results. */
  lemma ResultOfStep(a: Assumptions, s: State, i: nat, step: PassStep) returns (r: Option<PassResult>)
    requires PassEnabled(a, s, i, step)
    ensures PassEffect(a, s, i, step).results ==
            match r case None => s.results case Some(x) => s.results + [x]
    ensures r.Some? && r.value.Progress? ==> step.Finish? && i in s.workers && s.workers[i].changes
  {
    var t := PassEffect(a, s, i, step);
    r := if t.results == s.results then None else Some(t.results[|s.results|]);
  }

  lemma CountGrows(rs: seq<PassResult>, from: nat, r: PassResult, kind: Kind)
    requires from <= |rs|
    ensures Count((rs + [r])[from..], kind) == Count(rs[from..], kind) + if KindOf(r) == kind then 1 else 0
  {
    var after := (rs + [r])[from..];
    assert after[..|after| - 1] == rs[from..];
  }

  lemma StepIsCalm(a: Assumptions, s: State, act: Action, t: State, from: nat)
    requires CalmOk(s, from) && AllHold(a) && Next(a, s, act, t) && CalmStep(s, act)
    ensures CalmOk(t, from)
  {
    StepSafe(a, s, act, t);
    match act
    case Env(e) => EnvIsCalm(a, s, e);
    case InEngine(i, e) => EngineIsCalm(a, s, i, e);
    case InPass(i, step) =>
      PassIsCalm(a, s, i, step);
      PassCounts(a, s, i, step, from);
  }

  lemma PassCounts(a: Assumptions, s: State, i: nat, step: PassStep, from: nat)
    requires CalmOk(s, from) && AllHold(a) && PassEnabled(a, s, i, step) && CalmStep(s, InPass(i, step))
    ensures var t := PassEffect(a, s, i, step);
            && from <= |t.results| && Count(t.results[from..], Progresses) <= 1
            && (Count(t.results[from..], Progresses) == 1 ==> AfterProgress(t))
  {
    PassIsCalm(a, s, i, step);
    var r := ResultOfStep(a, s, i, step);
    if r.Some? {
      CountGrows(s.results, from, r.value, Progresses);
      if r.value.Progress? { FinishIsCalm(a, s, i); }
    }
  }

  lemma IdleIsCalm(a: Assumptions, s: State)
    requires AllHold(a) && Reachable(a, s) && s.workers == map[]
    ensures CalmOk(s, |s.results|)
  {
    ReachableSafe(a, s);
    assert s.results[|s.results|..] == [];
  }

  lemma RunIsCalm(a: Assumptions, x: Execution, from: nat, k: nat)
    requires CalmSteps(a, x) && k <= |x.acts| && CalmOk(x.states[0], from)
    ensures CalmOk(x.states[k], from)
  {
    var inv := s => CalmOk(s, from);
    forall j: nat | j < k ensures KeptAt(x, inv, j) {
      var s, act := x.states[j], x.acts[j];
      assert Next(a, s, act, x.states[j + 1]) && CalmStep(s, act);
      if inv(s) { StepIsCalm(a, s, act, x.states[j + 1], from); }
    }
    AllAlong(x, inv, k);
  }

  lemma DeploysNothing(a: Assumptions, s: State, act: Action, t: State)
    requires AfterProgress(s) && AllHold(a) && Next(a, s, act, t)
    ensures !act.InEngine? && (act.InPass? ==> !act.step.Deploy?)
    ensures t.secret == s.secret || s.obj.None?
  {
    assert act.InEngine? ==> NoDeploy(s, s.workers[act.i]);
    match act
    case Env(e) => EnvKeepsSecret(a, s, e);
    case InPass(i, step) =>
      PassKeepsSecret(a, s, i, step);
      assert i in s.workers ==> NoDeploy(s, s.workers[i]);
    case InEngine(_, _) =>
  }

  // ----- counting -----

  lemma {:induction false} CountsAddUp(rs: seq<PassResult>)
    ensures Count(rs, Quiets) + Count(rs, Progresses) + Count(rs, Failures) == |rs|
  {
    if rs != [] { CountsAddUp(rs[..|rs| - 1]); }
  }

  lemma {:induction false} CountOfPrefix(rs: seq<PassResult>, k: nat, kind: Kind)
    requires k <= |rs|
    ensures Count(rs[..k], kind) <= Count(rs, kind)
    decreases |rs|
  {
    if k < |rs| {
      CountOfPrefix(rs[..|rs| - 1], k, kind);
      assert rs[..|rs| - 1][..k] == rs[..k];
    } else {
      assert rs[..k] == rs;
    }
  }

  lemma {:induction false} CountFinds(rs: seq<PassResult>)
    requires Count(rs, Quiets) > 0
    ensures exists m :: 0 <= m < |rs| && rs[m].Quiet?
  {
    if !rs[|rs| - 1].Quiet? { CountFinds(rs[..|rs| - 1]); }
    else { assert rs[|rs| - 1].Quiet?; }
  }

  /** Among more results than progresses and failures there is a quiet one. */
  lemma QuietAmongFirst(rs: seq<PassResult>, n: nat) returns (m: nat)
    requires n <= |rs| && Count(rs, Progresses) + Count(rs[..n], Failures) < n
    ensures m < n && rs[m].Quiet?
  {
    CountOfPrefix(rs, n, Progresses);
    CountsAddUp(rs[..n]);
    CountFinds(rs[..n]);
    m :| 0 <= m < n && rs[..n][m].Quiet?;
  }

  function Places(rs: seq<PassResult>, kind: Kind): set<int> {
    set k | 0 <= k < |rs| && KindOf(rs[k]) == kind
  }

  /** The counts are those of the results themselves. */
  lemma {:induction false} CountIsCardinality(rs: seq<PassResult>, kind: Kind)
    ensures Count(rs, kind) == |Places(rs, kind)|
  {
    if rs != [] {
      var n := |rs| - 1;
      CountIsCardinality(rs[..n], kind);
      assert Places(rs, kind) == Places(rs[..n], kind) + if KindOf(rs[n]) == kind then {n} else {};
    }
  }

  lemma CountsOf(rs: seq<PassResult>)
    ensures Count(rs, Quiets) == |set k | 0 <= k < |rs| && rs[k].Quiet?|
    ensures Count(rs, Progresses) == |set k | 0 <= k < |rs| && rs[k] == Progress|
    ensures Count(rs, Failures) == |set k | 0 <= k < |rs| && (rs[k].Failed? || rs[k].Crashed?)|
  {
    CountIsCardinality(rs, Quiets);
    CountIsCardinality(rs, Progresses);
    CountIsCardinality(rs, Failures);
    assert Places(rs, Quiets) == set k | 0 <= k < |rs| && rs[k].Quiet?;
    assert Places(rs, Progresses) == set k | 0 <= k < |rs| && rs[k] == Progress;
    assert Places(rs, Failures) == set k | 0 <= k < |rs| && (rs[k].Failed? || rs[k].Crashed?);
  }

  /** Results are only ever added. */
  lemma StepAddsResults(a: Assumptions, s: State, act: Action, t: State)
    requires Next(a, s, act, t)
    ensures s.results <= t.results
  {
    match act
    case Env(_) =>
    case InPass(i, step) => var _ := ResultOfStep(a, s, i, step);
    case InEngine(_, _) =>
  }

  /** The results since the run began are all that it added. */
  lemma SinceIsAdded(a: Assumptions, x: Execution)
    requires IsExecution(a, x)
    ensures x.states[|x.acts|].results == x.states[0].results + Since(x)
  {
    var before := x.states[0].results;
    var inv := (s: State) => before <= s.results;
    forall j: nat | j < |x.acts| ensures KeptAt(x, inv, j) {
      assert Next(a, x.states[j], x.acts[j], x.states[j + 1]);
      StepAddsResults(a, x.states[j], x.acts[j], x.states[j + 1]);
    }
    AllAlong(x, inv, |x.acts|);
  }

  // ----- a vanished object -----

  /** The object is gone, nobody is in a pass, and all passes since have returned quietly. */
  ghost predicate OnlyGone(s: State, from: nat) {
    && s.obj.None? && s.workers == map[] && from <= |s.results|
    && forall m | from <= m < |s.results| :: s.results[m] == Quiet(Gone, false)
  }

  lemma StepOnlyGone(a: Assumptions, s: State, act: Action, t: State, from: nat)
    requires OnlyGone(s, from) && Next(a, s, act, t) && CalmStep(s, act)
    ensures OnlyGone(t, from)
  {
    match act
    case Env(_) =>
    case InPass(_, _) =>
    case InEngine(_, _) =>
  }

  // ----- main results -----

  /** A vanished object ends the loop at once: every pass over it returns without error and requeue. */
  lemma GoneEndsLoop(a: Assumptions, x: Execution, m: nat)
    requires CalmRun(a, x) && x.states[0].obj.None? && m < |Since(x)|
    ensures Since(x)[m] == Quiet(Gone, false)
  {
    var from := |x.states[0].results|;
    var inv := s => OnlyGone(s, from);
    forall j: nat | j < |x.acts| ensures KeptAt(x, inv, j) {
      var s, act := x.states[j], x.acts[j];
      assert Next(a, s, act, x.states[j + 1]) && CalmStep(s, act);
      if inv(s) { StepOnlyGone(a, s, act, x.states[j + 1], from); }
    }
    AllAlong(x, inv, |x.acts|);
  }

  /** At most one pass of a calm run returns after a deployment asking for another pass. */
  lemma AtMostOneProgress(a: Assumptions, x: Execution)
    requires CalmRun(a, x)
    ensures Count(Since(x), Progresses) <= 1
  {
    IdleIsCalm(a, x.states[0]);
    RunIsCalm(a, x, |x.states[0].results|, |x.acts|);
  }

  /** After that pass nothing is deployed and no save is made any more, nor does a late one land: the Secret stays
      as it is while it has an owner. */
  lemma NoDeploymentAfterProgress(a: Assumptions, x: Execution, k: nat)
    requires CalmRun(a, x) && k < |x.acts| && |x.states[0].results| <= |x.states[k].results|
    requires Count(x.states[k].results[|x.states[0].results|..], Progresses) > 0
    ensures !x.acts[k].InEngine? && (x.acts[k].InPass? ==> !x.acts[k].step.Deploy?)
    ensures x.states[k + 1].secret == x.states[k].secret || x.states[k].obj.None?
  {
    IdleIsCalm(a, x.states[0]);
    RunIsCalm(a, x, |x.states[0].results|, k);
    DeploysNothing(a, x.states[k], x.acts[k], x.states[k + 1]);
  }

  /** Convergence: from any reachable idle state, once nobody edits the object, the requeue loop ends within
      two passes more than fail: the first k + 2 results hold a quiet one whenever at most k of them are
      failures. */
  lemma RequeueLoopEnds(a: Assumptions, x: Execution, k: nat) returns (m: nat)
    requires CalmRun(a, x)
    requires k + 2 <= |Since(x)| && Count(Since(x)[..k + 2], Failures) <= k
    ensures m < k + 2 && Since(x)[m].Quiet?
  {
    AtMostOneProgress(a, x);
    m := QuietAmongFirst(Since(x), k + 2);
  }
}
