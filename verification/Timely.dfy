/** Runs in which no save arrives late: the stored snapshot is then the one every pass works on,
    a Secret without the controller's finalizer on its owner accounts for nothing, and the deletion of an object
    converges one pass sooner. */
module Timely {
  import opened Options
  import opened Store
  import opened Protocol
  import opened History
  import opened Safety
  import opened Convergence
  import opened Necessity

  predicate InTime(act: Action) { !(act.Env? && ArrivesAtSecret(act.env)) }

  ghost predicate InTimeRun(x: Execution) {
    forall k {:trigger x.acts[k]} | 0 <= k < |x.acts| :: InTime(x.acts[k])
  }

  /** Some run without a late save leads here. */
  ghost predicate ReachableInTime(a: Assumptions, s: State) {
    exists x :: IsExecution(a, x) && Starts(x) && InTimeRun(x) && x.states[|x.acts|] == s
  }

  // ----- invariant -----

  ghost predicate PassSynced(s: State, p: Pass) {
    && (p.pc in {Loaded, Previewed, Reported, Deployed, Finalizing} || (p.pc == Deploying && !p.saveFailed) ==>
          InSync(s, p))
    && (p.pc == Reported && !p.obj.finalizer ==> Covered(Base(p.stack.snap)) == {})
    && (p.pc == Deploying && !p.obj.finalizer ==> Covered(p.mem) == {})
  }

  ghost predicate LateSynced(s: State, w: Request) {
    w.FinalizerWrite? && !w.present && Current(s, w.obj) ==> Covered(Recorded(s.secret)) == {}
  }

  ghost predicate Synced(s: State) {
    && (!HasFinalizer(s) ==> Covered(Recorded(s.secret)) == {})
    && (forall i | i in s.workers :: PassSynced(s, s.workers[i]))
    && (forall w | w in s.late :: LateSynced(s, w))
  }

  // ----- one step -----

  lemma CommitSyncs(s: State, o: Object)
    requires SafeOk(s) && Synced(s) && s.obj.Some?
    requires s.obj.value.finalizer && !o.finalizer ==> Covered(Recorded(s.secret)) == {}
    ensures Synced(Commit(s, o))
  {
    var t := Commit(s, o);
    forall i | i in t.workers ensures PassSynced(t, t.workers[i]) { assert PassSynced(s, s.workers[i]); }
    forall w | w in t.late ensures LateSynced(t, w) { assert LateOk(s, w); }
  }

  lemma ForgetSyncs(s: State, w: Request)
    requires SafeOk(s) && Synced(s)
    ensures SafeOk(s.(late := s.late - {w})) && Synced(s.(late := s.late - {w}))
  {
    var t := s.(late := s.late - {w});
    ForgetSafe(s, w);
    forall v | v in t.late ensures LateSafe(t, v) && LateSynced(t, v) {
      assert LateSafe(s, v) && LateSynced(s, v) && Armed(t) == Armed(s);
    }
    forall i | i in t.workers ensures PassSynced(t, t.workers[i]) { assert PassSynced(s, s.workers[i]); }
  }

  lemma EnvSyncs(a: Assumptions, s: State, e: EnvStep)
    requires SafeOk(s) && Synced(s) && AllHold(a) && EnvEnabled(a, s, e) && InTime(Env(e))
    ensures Synced(EnvEffect(a, s, e))
  {
    match e
    case Arrive(w) =>
      assert LateOk(s, w) && LateSynced(s, w);
      OwnVersion(s, w.obj);
      ForgetSyncs(s, w);
      CommitSyncs(s.(late := s.late - {w}),
                  if w.StatusWrite? then PutStatus(s.obj.value, w.obj.(observed := w.obj.gen))
                  else Put(s.obj.value, w.obj.(finalizer := w.present)));
    case CollectSecret => QuietEnvSyncs(a, s, e);
    case Land(_) => QuietEnvSyncs(a, s, e);
    case Vanish(_) => QuietEnvSyncs(a, s, e);
    case StripFinalizer => assert false;
    case _ =>
      EnvWriteCommits(a, s, e);
      CommitSyncs(s, EnvWrite(s.obj.value, e));
  }

  lemma QuietEnvSyncs(a: Assumptions, s: State, e: EnvStep)
    requires Synced(s) && AllHold(a) && EnvEnabled(a, s, e) && (e.CollectSecret? || e.Land? || e.Vanish?)
    ensures Synced(EnvEffect(a, s, e))
  {
    var t := EnvEffect(a, s, e);
    forall i | i in t.workers ensures PassSynced(t, t.workers[i]) { assert PassSynced(s, s.workers[i]); }
    forall w | w in t.late ensures LateSynced(t, w) { assert LateSynced(s, w); }
  }

  /** An engine that has anything to save works under the finalizer. */
  lemma SavesUnderFinalizer(a: Assumptions, s: State, i: nat, e: EngineStep)
    requires CoreSafe(s) && Synced(s) && i in s.workers && EngineAllowed(a, s, s.workers[i], e) && IsSave(e)
    ensures HasFinalizer(s)
  {
    assert PassSafe(s, s.workers[i]) && PassSynced(s, s.workers[i]);
  }

  lemma SaveSyncs(a: Assumptions, s: State, i: nat, e: EngineStep, reply: Reply)
    requires SafeOk(s) && Synced(s) && AllHold(a) && i in s.workers && EngineAllowed(a, s, s.workers[i], e)
    requires IsSave(e) && e.reply == reply && SaveOk(s, s.workers[i], reply)
    ensures Synced(SaveEffect(s, i, e, reply))
  {
    SavesUnderFinalizer(a, s, i, e);
    assert PassSafe(s, s.workers[i]) && PassSynced(s, s.workers[i]) && AtMostOne(s);
    var t := SaveEffect(s, i, e, reply);
    forall w | w in t.late ensures LateSynced(t, w) {
      if w in s.late { assert LateSafe(s, w); }
    }
  }

  lemma EngineSyncs(a: Assumptions, s: State, i: nat, e: EngineStep)
    requires SafeOk(s) && Synced(s) && AllHold(a) && i in s.workers && EngineAllowed(a, s, s.workers[i], e)
    ensures Synced(EngineEffect(s, i, e))
  {
    if IsSave(e) {
      SaveSyncs(a, s, i, e, e.reply);
    } else {
      var t := EngineEffect(s, i, e);
      forall j | j in t.workers ensures PassSynced(t, t.workers[j]) { assert PassSynced(s, s.workers[j]); }
      forall w | w in t.late ensures LateSynced(t, w) { assert LateSynced(s, w); }
    }
  }

  lemma EndSyncs(s: State, i: nat, r: PassResult)
    requires Synced(s)
    ensures Synced(EndPass(s, i, r))
  {
    var t := EndPass(s, i, r);
    forall j | j in t.workers ensures PassSynced(t, t.workers[j]) { assert PassSynced(s, s.workers[j]); }
    forall w | w in t.late ensures LateSynced(t, w) { assert LateSynced(s, w); }
  }

  lemma MoveSyncs(s: State, i: nat, q: Pass)
    requires Synced(s) && PassSynced(s, q)
    ensures Synced(SetPass(s, i, q))
  {
    var t := SetPass(s, i, q);
    forall j | j in t.workers ensures PassSynced(t, t.workers[j]) {
      if j != i { assert PassSynced(s, s.workers[j]); }
    }
    forall w | w in t.late ensures LateSynced(t, w) { assert LateSynced(s, w); }
  }

  /** A pass ends with its write of the object on the way. */
  lemma SendEndSyncs(s: State, i: nat, w: Request, r: PassResult)
    requires Synced(s) && LateSynced(s, w)
    ensures Synced(EndPass(Send(s, w), i, r))
  {
    var t := EndPass(Send(s, w), i, r);
    forall j | j in t.workers ensures PassSynced(t, t.workers[j]) { assert PassSynced(s, s.workers[j]); }
    forall v | v in t.late ensures LateSynced(t, v) { if v != w { assert LateSynced(s, v); } }
  }

  lemma StatusSyncs(a: Assumptions, s: State, i: nat, reply: Reply, next: Pc)
    requires SafeOk(s) && Synced(s) && i in s.workers && (reply.Refused? || Current(s, s.workers[i].obj))
    requires (s.workers[i].pc == Previewed && next == Reported) || (s.workers[i].pc == Deployed && next == Finalizing)
    ensures Synced(WriteStatus(s, i, s.workers[i], reply, next))
  {
    var p := s.workers[i];
    if reply.Refused? {
      SendEndSyncs(s, i, StatusWrite(p.obj), Failed(true));
    } else {
      assert PassOk(s, p) && PassSafe(s, p) && PassSynced(s, p);
      OwnVersion(s, p.obj);
      var o := PutStatus(s.obj.value, p.obj.(observed := p.obj.gen));
      CommitSyncs(s, o);
      var s1 := Commit(s, o);
      if reply.Lost? || s1.obj.None? { EndSyncs(s1, i, Failed(true)); }
      else { MoveSyncs(s1, i, WriteStatus(s, i, p, reply, next).workers[i]); }
    }
  }

  lemma FinalizerSyncs(s: State, i: nat, add: bool)
    requires SafeOk(s) && Synced(s) && i in s.workers && Current(s, s.workers[i].obj)
    requires !add ==> s.workers[i].pc == Finalizing && s.workers[i].obj.deleting
    ensures Synced(Commit(s, Put(s.obj.value, s.workers[i].obj.(finalizer := add))))
    ensures !add ==> Covered(Recorded(s.secret)) == {}
  {
    PutFinalizer(s, i, add);
    assert PassSynced(s, s.workers[i]);
    if !add { RemovalFindsNothing(s, i); }
    CommitSyncs(s, s.obj.value.(finalizer := add));
  }

  lemma AddSyncs(s: State, i: nat, reply: Reply)
    requires SafeOk(s) && Synced(s) && i in s.workers && (reply.Refused? || Current(s, s.workers[i].obj))
    requires s.workers[i].pc == Fetched
    ensures Synced(AddEffect(s, i, s.workers[i], reply))
  {
    if reply.Refused? {
      SendEndSyncs(s, i, FinalizerWrite(s.workers[i].obj, true), Failed(false));
    } else {
      FinalizerSyncs(s, i, true);
      var s1 := Commit(s, Put(s.obj.value, s.workers[i].obj.(finalizer := true)));
      if reply.Lost? || s1.obj.None? { EndSyncs(s1, i, Failed(false)); }
      else { MoveSyncs(s1, i, s.workers[i].(pc := Guarded, obj := s1.obj.value)); }
    }
  }

  lemma RemoveSyncs(s: State, i: nat, reply: Reply)
    requires SafeOk(s) && Synced(s) && i in s.workers && (reply.Refused? || Current(s, s.workers[i].obj))
    requires s.workers[i].pc == Finalizing && s.workers[i].obj.deleting
    ensures Synced(RemoveEffect(s, i, s.workers[i], reply))
  {
    if reply.Refused? {
      if Current(s, s.workers[i].obj) { FinalizerSyncs(s, i, false); }
      SendEndSyncs(s, i, FinalizerWrite(s.workers[i].obj, false), Failed(false));
    } else {
      FinalizerSyncs(s, i, false);
      EndSyncs(Commit(s, Put(s.obj.value, s.workers[i].obj.(finalizer := false))), i,
               if reply.Acked? then Quiet(Finalized, s.workers[i].changes) else Failed(false));
    }
  }

  lemma StandSyncs(a: Assumptions, s: State, i: nat, step: PassStep)
    requires SafeOk(s) && Synced(s) && AllHold(a) && PassEnabled(a, s, i, step)
    requires step.SkipFinalizer? || step.Preview? || step.SkipDeploy? || step.Deploy? || step.Succeed?
    ensures Synced(PassEffect(a, s, i, step))
  {
    assert PassSynced(s, s.workers[i]);
    MoveSyncs(s, i, PassEffect(a, s, i, step).workers[i]);
  }

  lemma PassSyncs(a: Assumptions, s: State, i: nat, step: PassStep)
    requires SafeOk(s) && Synced(s) && AllHold(a) && PassEnabled(a, s, i, step)
    ensures Synced(PassEffect(a, s, i, step))
  {
    match step
    case NotFound => EndSyncs(s, i, Quiet(Gone, false));
    case Start(view) => MoveSyncs(s, i, NewPass(view));
    case AddFinalizer(reply) => AddSyncs(s, i, reply);
    case Load(view) => LoadSyncs(s, i);
    case Report(reply) => StatusSyncs(a, s, i, reply, Reported);
    case ReportDeployed(reply) => StatusSyncs(a, s, i, reply, Finalizing);
    case Finish => EndSyncs(s, i, if s.workers[i].changes then Progress else Quiet(Unchanged, false));
    case RemoveFinalizer(reply) => RemoveSyncs(s, i, reply);
    case Abort(requeue) => EndSyncs(s, i, Failed(requeue));
    case Crash => EndSyncs(s, i, Crashed);

    case _ => StandSyncs(a, s, i, step);
  }

  lemma LoadSyncs(s: State, i: nat)
    requires Synced(s) && i in s.workers && s.workers[i].pc == Guarded
    ensures Synced(LoadEffect(s, i, s.workers[i], s.secret))
  {
    var p := s.workers[i];
    if s.secret.Some? && s.secret.value.gen > p.obj.gen { EndSyncs(s, i, Failed(true)); }
    else { MoveSyncs(s, i, p.(pc := Loaded, cfg := p.obj.spec, stack := Stack(ContentOf(s.secret), s.secret))); }
  }

  lemma StepSyncs(a: Assumptions, s: State, act: Action, t: State)
    requires SafeOk(s) && Synced(s) && AllHold(a) && Next(a, s, act, t) && InTime(act)
    ensures Synced(t)
  {
    match act
    case Env(e) => EnvSyncs(a, s, e);
    case InPass(i, step) => PassSyncs(a, s, i, step);
    case InEngine(i, e) => EngineSyncs(a, s, i, e);
  }

  lemma RunSyncs(a: Assumptions, x: Execution, k: nat)
    requires IsExecution(a, x) && AllHold(a) && InTimeRun(x) && SafeOk(x.states[0]) && Synced(x.states[0])
    requires k <= |x.acts|
    ensures Synced(x.states[k])
  {
    var inv := s => Synced(s);
    forall j: nat | j < k ensures KeptAt(x, inv, j) {
      assert Next(a, x.states[j], x.acts[j], x.states[j + 1]) && InTime(x.acts[j]);
      RunSafe(a, x, j);
      if inv(x.states[j]) { StepSyncs(a, x.states[j], x.acts[j], x.states[j + 1]); }
    }
    AllAlong(x, inv, k);
  }

  lemma InTimeIsSynced(a: Assumptions, s: State)
    requires AllHold(a) && ReachableInTime(a, s)
    ensures Reachable(a, s) && SafeOk(s) && Synced(s)
  {
    var x :| IsExecution(a, x) && Starts(x) && InTimeRun(x) && x.states[|x.acts|] == s;
    RunSyncs(a, x, |x.acts|);
    RunSafe(a, x, |x.acts|);
  }

  // ----- main results -----

  /** Without late saves the Secret of an object that is gone, or has lost the controller's finalizer, accounts for
      nothing, pending entries included. */
  lemma RemovedSecretIsEmpty(a: Assumptions, s: State)
    requires AllHold(a) && ReachableInTime(a, s) && !HasFinalizer(s)
    ensures s.secret.Some? ==> s.secret.value.content == Checkpoint({}, {}, {})
  {
    InTimeIsSynced(a, s);
  }

  /** Wherever the object is gone or has lost the controller's finalizer, the Secret accounts for nothing. */
  ghost predicate EmptyOnceUnguarded(x: Execution) {
    forall k | 0 <= k < |x.states| && !HasFinalizer(x.states[k]) :: Covered(Recorded(x.states[k].secret)) == {}
  }

  /** So the late saves decide: under all the assumptions the Secret is empty once it is unguarded, over all runs,
      exactly if no save may arrive late. */
  lemma LateSavesDecide(a: Assumptions, mayBeLate: bool)
    requires AllHold(a)
    ensures !mayBeLate <==>
            forall x | IsExecution(a, x) && Starts(x) && (mayBeLate || InTimeRun(x)) :: EmptyOnceUnguarded(x)
  {
    if mayBeLate {
      var s := LateSaveOutlivesObject(a);
      var x :| IsExecution(a, x) && Starts(x) && x.states[|x.acts|] == s;
      assert 0 in Covered(Recorded(s.secret));
      assert !EmptyOnceUnguarded(x);
    } else {
      forall x | IsExecution(a, x) && Starts(x) && InTimeRun(x) ensures EmptyOnceUnguarded(x) {
        forall k: nat | k < |x.states| && !HasFinalizer(x.states[k])
          ensures Covered(Recorded(x.states[k].secret)) == {}
        {
          RunSyncs(a, x, k);
        }
      }
    }
  }

  /** Without late saves a deployment starts from what is stored. */
  lemma DeploymentStartsFromStored(a: Assumptions, s: State, i: nat)
    requires AllHold(a) && ReachableInTime(a, s) && PassEnabled(a, s, i, Deploy) && s.obj.Some?
    ensures PassEffect(a, s, i, Deploy).workers[i].mem == Recorded(s.secret)
  {
    InTimeIsSynced(a, s);
    assert PassSynced(s, s.workers[i]) && PassOk(s, s.workers[i]);
  }

  // ----- deletion -----

  ghost predicate Finalizable(s: State, p: Pass) {
    && p.obj.deleting
    && (!p.obj.finalizer && s.obj.Some? ==> !s.obj.value.finalizer)
    && (p.pc == Previewed && p.changes ==> p.obj.finalizer || s.obj.None?)
    && (p.pc in {Reported, Deploying, Deployed, Finalizing} && p.changes ==> p.obj.finalizer)
  }

  /** The object is deleted, every pass knows, and none that finds changes has lost the finalizer. */
  ghost predicate OnlyFinalizes(s: State) {
    && (s.obj.Some? ==> s.obj.value.deleting)
    && forall i | i in s.workers :: Finalizable(s, s.workers[i])
  }

  lemma CommitFinalizes(s: State, o: Object)
    requires OnlyFinalizes(s) && s.obj.Some? && o.deleting && (o.finalizer ==> s.obj.value.finalizer)
    ensures OnlyFinalizes(Commit(s, o))
  {
    var t := Commit(s, o);
    forall i | i in t.workers ensures Finalizable(t, t.workers[i]) { assert Finalizable(s, s.workers[i]); }
  }

  lemma EndFinalizes(s: State, i: nat, r: PassResult)
    requires OnlyFinalizes(s)
    ensures OnlyFinalizes(EndPass(s, i, r))
  {
    var t := EndPass(s, i, r);
    forall j | j in t.workers ensures Finalizable(t, t.workers[j]) { assert Finalizable(s, s.workers[j]); }
  }

  lemma StandFinalizes(s: State, t: State)
    requires OnlyFinalizes(s) && t.obj == s.obj && t.workers == s.workers
    ensures OnlyFinalizes(t)
  {
    forall j | j in t.workers ensures Finalizable(t, t.workers[j]) { assert Finalizable(s, s.workers[j]); }
  }

  lemma SendEndFinalizes(s: State, i: nat, w: Request, r: PassResult)
    requires OnlyFinalizes(s)
    ensures OnlyFinalizes(EndPass(Send(s, w), i, r))
  {
    StandFinalizes(s, Send(s, w));
    EndFinalizes(Send(s, w), i, r);
  }

  lemma MoveFinalizes(s: State, i: nat, q: Pass)
    requires OnlyFinalizes(s) && Finalizable(s, q)
    ensures OnlyFinalizes(SetPass(s, i, q))
  {
    var t := SetPass(s, i, q);
    forall j | j in t.workers ensures Finalizable(t, t.workers[j]) {
      if j != i { assert Finalizable(s, s.workers[j]); }
    }
  }

  lemma EnvFinalizes(a: Assumptions, s: State, e: EnvStep)
    requires SafeOk(s) && OnlyFinalizes(s) && AllHold(a) && EnvEnabled(a, s, e) && CalmStep(s, Env(e))
    ensures OnlyFinalizes(EnvEffect(a, s, e))
  {
    match e
    case SetOtherFinalizers(present) => CommitFinalizes(s, s.obj.value.(otherFinalizers := present));
    case EndForeground => CommitFinalizes(s, s.obj.value.(foreground := false));
    case Arrive(w) =>
      assert LateOk(s, w) && LateSafe(s, w);
      if !w.SecretWrite? {
        OwnVersion(s, w.obj);
        var s1 := s.(late := s.late - {w});
        forall j | j in s1.workers ensures Finalizable(s1, s1.workers[j]) { assert Finalizable(s, s.workers[j]); }
        CommitFinalizes(s1, if w.StatusWrite? then PutStatus(s.obj.value, w.obj.(observed := w.obj.gen))
                            else Put(s.obj.value, w.obj.(finalizer := w.present)));
      } else {
        StandFinalizes(s, EnvEffect(a, s, e));
      }
    case CollectSecret => StandFinalizes(s, EnvEffect(a, s, e));
    case Land(_) => StandFinalizes(s, EnvEffect(a, s, e));
    case Vanish(_) => StandFinalizes(s, EnvEffect(a, s, e));
    case EditSpec(_) => assert false;
    case RequestDeletion(_) => CommitFinalizes(s, EnvWrite(s.obj.value, e));
    case StripFinalizer => assert false;
  }

  lemma EngineFinalizes(a: Assumptions, s: State, i: nat, e: EngineStep)
    requires OnlyFinalizes(s) && i in s.workers && EngineAllowed(a, s, s.workers[i], e)
    ensures OnlyFinalizes(EngineEffect(s, i, e))
  {
    EngineKeepsObject(s, i, e);
    var t := EngineEffect(s, i, e);
    assert Finalizable(s, s.workers[i]);
    forall j | j in t.workers ensures Finalizable(t, t.workers[j]) {
      if j != i { assert Finalizable(s, s.workers[j]); }
    }
  }

  /** Without the finalizer there is nothing left to report. */
  lemma PreviewFinalizes(a: Assumptions, s: State, i: nat, changes: bool)
    requires SafeOk(s) && Synced(s) && OnlyFinalizes(s) && AllHold(a) && PassEnabled(a, s, i, Preview(changes))
    requires CalmStep(s, InPass(i, Preview(changes)))
    ensures OnlyFinalizes(PassEffect(a, s, i, Preview(changes)))
  {
    var p := s.workers[i];
    assert PassSafe(s, p) && PassOk(s, p) && PassSynced(s, p) && Finalizable(s, p);
    MoveFinalizes(s, i, p.(pc := Previewed, previewOp := OpFor(p.obj), changes := changes));
  }

  lemma StatusFinalizes(s: State, i: nat, reply: Reply, next: Pc)
    requires SafeOk(s) && OnlyFinalizes(s) && i in s.workers && (reply.Refused? || Current(s, s.workers[i].obj))
    requires (s.workers[i].pc == Previewed && next == Reported) || (s.workers[i].pc == Deployed && next == Finalizing)
    ensures OnlyFinalizes(WriteStatus(s, i, s.workers[i], reply, next))
  {
    var p := s.workers[i];
    if reply.Refused? {
      SendEndFinalizes(s, i, StatusWrite(p.obj), Failed(true));
    } else {
      assert PassOk(s, p) && Finalizable(s, p);
      OwnVersion(s, p.obj);
      var o := PutStatus(s.obj.value, p.obj.(observed := p.obj.gen));
      CommitFinalizes(s, o);
      var s1 := Commit(s, o);
      if reply.Lost? || s1.obj.None? { EndFinalizes(s1, i, Failed(true)); }
      else { MoveFinalizes(s1, i, WriteStatus(s, i, p, reply, next).workers[i]); }
    }
  }

  lemma RemoveFinalizes(s: State, i: nat, reply: Reply)
    requires SafeOk(s) && OnlyFinalizes(s) && i in s.workers && (reply.Refused? || Current(s, s.workers[i].obj))
    ensures OnlyFinalizes(RemoveEffect(s, i, s.workers[i], reply))
  {
    if reply.Refused? {
      SendEndFinalizes(s, i, FinalizerWrite(s.workers[i].obj, false), Failed(false));
    } else {
      PutFinalizer(s, i, false);
      CommitFinalizes(s, s.obj.value.(finalizer := false));
      EndFinalizes(Commit(s, s.obj.value.(finalizer := false)), i,
                   if reply.Acked? then Quiet(Finalized, s.workers[i].changes) else Failed(false));
    }
  }

  lemma PassFinalizes(a: Assumptions, s: State, i: nat, step: PassStep)
    requires SafeOk(s) && Synced(s) && OnlyFinalizes(s) && AllHold(a) && PassEnabled(a, s, i, step)
    requires CalmStep(s, InPass(i, step))
    ensures OnlyFinalizes(PassEffect(a, s, i, step))
  {
    assert i in s.workers ==> Finalizable(s, s.workers[i]);
    match step
    case NotFound => EndFinalizes(s, i, Quiet(Gone, false));
    case Start(view) => MoveFinalizes(s, i, NewPass(view));
    case Preview(changes) => PreviewFinalizes(a, s, i, changes);
    case Report(reply) => StatusFinalizes(s, i, reply, Reported);
    case ReportDeployed(reply) => StatusFinalizes(s, i, reply, Finalizing);
    case Finish => EndFinalizes(s, i, if s.workers[i].changes then Progress else Quiet(Unchanged, false));
    case RemoveFinalizer(reply) => RemoveFinalizes(s, i, reply);
    case Abort(requeue) => EndFinalizes(s, i, Failed(requeue));
    case Crash => EndFinalizes(s, i, Crashed);

    case AddFinalizer(_) => assert false;
    case Load(_) => LoadFinalizes(s, i);
    case _ => MoveFinalizes(s, i, PassEffect(a, s, i, step).workers[i]);
  }

  lemma LoadFinalizes(s: State, i: nat)
    requires OnlyFinalizes(s) && i in s.workers && s.workers[i].pc == Guarded
    ensures OnlyFinalizes(LoadEffect(s, i, s.workers[i], s.secret))
  {
    var p := s.workers[i];
    assert Finalizable(s, p);
    if s.secret.Some? && s.secret.value.gen > p.obj.gen { EndFinalizes(s, i, Failed(true)); }
    else { MoveFinalizes(s, i, p.(pc := Loaded, cfg := p.obj.spec, stack := Stack(ContentOf(s.secret), s.secret))); }
  }

  ghost predicate DeletionOk(s: State, from: nat) {
    && SafeOk(s) && Synced(s) && OnlyFinalizes(s) && from <= |s.results|
    && Count(s.results[from..], Progresses) == 0
  }

  lemma PassResultsFinalize(a: Assumptions, s: State, i: nat, step: PassStep, from: nat)
    requires DeletionOk(s, from) && PassEnabled(a, s, i, step)
    ensures var t := PassEffect(a, s, i, step);
            from <= |t.results| && Count(t.results[from..], Progresses) == 0
  {
    var r := ResultOfStep(a, s, i, step);
    if i in s.workers { assert Finalizable(s, s.workers[i]); }
    if r.Some? { CountGrows(s.results, from, r.value, Progresses); }
  }

  lemma StepFinalizes(a: Assumptions, s: State, act: Action, t: State, from: nat)
    requires DeletionOk(s, from) && AllHold(a) && Next(a, s, act, t) && CalmStep(s, act) && InTime(act)
    ensures DeletionOk(t, from)
  {
    StepSafe(a, s, act, t);
    StepSyncs(a, s, act, t);
    match act
    case Env(e) => EnvFinalizes(a, s, e); EnvKeepsResults(a, s, e);
    case InEngine(i, e) => EngineFinalizes(a, s, i, e); EngineKeepsResults(s, i, e);
    case InPass(i, step) =>
      PassFinalizes(a, s, i, step);
      PassResultsFinalize(a, s, i, step, from);
  }

  lemma EnvKeepsResults(a: Assumptions, s: State, e: EnvStep)
    requires EnvEnabled(a, s, e)
    ensures EnvEffect(a, s, e).results == s.results
  {
  }

  lemma EngineKeepsResults(s: State, i: nat, e: EngineStep)
    requires i in s.workers
    ensures EngineEffect(s, i, e).results == s.results
  {
  }

  lemma RunFinalizes(a: Assumptions, x: Execution, from: nat, k: nat)
    requires CalmSteps(a, x) && InTimeRun(x) && k <= |x.acts| && DeletionOk(x.states[0], from)
    ensures DeletionOk(x.states[k], from)
  {
    var inv := s => DeletionOk(s, from);
    forall j: nat | j < k ensures KeptAt(x, inv, j) {
      var s, act := x.states[j], x.acts[j];
      assert Next(a, s, act, x.states[j + 1]) && CalmStep(s, act) && InTime(act);
      if inv(s) { StepFinalizes(a, s, act, x.states[j + 1], from); }
    }
    AllAlong(x, inv, k);
  }

  lemma IdleFinalizes(a: Assumptions, s: State)
    requires AllHold(a) && ReachableInTime(a, s) && s.workers == map[] && s.obj.Some? && s.obj.value.deleting
    ensures DeletionOk(s, |s.results|)
  {
    InTimeIsSynced(a, s);
    assert s.results[|s.results|..] == [];
  }

  lemma NoProgressInDeletion(a: Assumptions, x: Execution)
    requires CalmRun(a, x) && InTimeRun(x) && ReachableInTime(a, x.states[0])
    requires x.states[0].obj.Some? && x.states[0].obj.value.deleting
    ensures Count(Since(x), Progresses) == 0
  {
    IdleFinalizes(a, x.states[0]);
    RunFinalizes(a, x, |x.states[0].results|, |x.acts|);
  }

  /** Finalization converges one pass sooner: for an object already marked for deletion no pass asks for another one
      after a deployment, because the pass that destroys also drops the finalizer. */
  lemma FinalizationEnds(a: Assumptions, x: Execution, k: nat) returns (m: nat)
    requires CalmRun(a, x) && InTimeRun(x) && ReachableInTime(a, x.states[0])
    requires x.states[0].obj.Some? && x.states[0].obj.value.deleting
    requires k + 1 <= |Since(x)| && Count(Since(x)[..k + 1], Failures) <= k
    ensures m < k + 1 && Since(x)[m].Quiet?
  {
    NoProgressInDeletion(a, x);
    m := QuietAmongFirst(Since(x), k + 1);
  }
}
