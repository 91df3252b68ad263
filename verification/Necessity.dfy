/** Each assumption of the protocol is needed: without it a concrete run ends with the object gone and a
    resource still live. Together with the safety proof this makes orphan freedom equivalent to the
    assumptions. */
module Necessity {
  import opened Options
  import opened Store
  import opened Protocol
  import opened History
  import opened Safety

  /** No run from a fresh object ends with the object gone and a resource live. */
  ghost predicate OrphanFree(a: Assumptions) {
    forall s | Reachable(a, s) && s.obj.None? :: s.live == {}
  }

  // ----- building runs -----

  lemma Begin(a: Assumptions, spec: set<Resource>) returns (s: State)
    ensures s == Created(spec, false) && Reachable(a, s)
  {
    s := Created(spec, false);
    var x := Execution([s], []);
    assert IsExecution(a, x) && Starts(x) && x.states[|x.acts|] == s;
  }

  lemma Do(a: Assumptions, s: State, act: Action) returns (t: State)
    requires Reachable(a, s) && Enabled(a, s, act)
    ensures t == Step(a, s, act) && Reachable(a, t)
  {
    t := Step(a, s, act);
    ReachNext(a, s, act, t);
  }

  const ONE := Checkpoint({0}, {}, {})
  const STARTED := Checkpoint({}, {0}, {})

  /** Load and preview, without a generation mismatch. */
  lemma LoadAndPreview(a: Assumptions, s0: State, i: nat, view: Option<Secret>, changes: bool) returns (s: State)
    requires Reachable(a, s0) && i in s0.workers && s0.workers[i].pc == Guarded
    requires view in s0.seenSecrets && (a.freshSecretReads ==> view == s0.secret)
    requires view.Some? ==> view.value.gen <= s0.workers[i].obj.gen
    requires var p := s0.workers[i];
             changes || Settles(a, Base(ContentOf(view)), Target(OpFor(p.obj), p.obj.spec))
    ensures Reachable(a, s)
    ensures var p := s0.workers[i];
            s == SetPass(s0, i, p.(pc := Previewed, cfg := p.obj.spec, stack := Stack(ContentOf(view), view),
                                   previewOp := OpFor(p.obj), changes := changes))
  {
    var s1 := Do(a, s0, InPass(i, Load(view)));
    s := Do(a, s1, InPass(i, Preview(changes)));
    assert s.workers == SetPass(s0, i, s.workers[i]).workers;
  }

  /** Read an object that needs no finalizer. */
  lemma ReadToGuarded(a: Assumptions, s0: State, i: nat, obj: Object) returns (s: State)
    requires Reachable(a, s0) && i !in s0.workers && (a.singleWorker ==> s0.workers == map[])
    requires obj in s0.seenObjs && (obj.deleting || obj.finalizer)
    ensures Reachable(a, s) && s == SetPass(s0, i, NewPass(obj).(pc := Guarded))
  {
    var s1 := Do(a, s0, InPass(i, Start(obj)));
    s := Do(a, s1, InPass(i, SkipFinalizer));
    assert s.workers == SetPass(s0, i, s.workers[i]).workers;
  }

  /** The first half of a pass over an object that needs no finalizer, up to its preview. */
  lemma ReadAndPreview(a: Assumptions, s0: State, i: nat, obj: Object, view: Option<Secret>, changes: bool)
    returns (s: State)
    requires Reachable(a, s0) && i !in s0.workers && (a.singleWorker ==> s0.workers == map[])
    requires obj in s0.seenObjs && (obj.deleting || obj.finalizer)
    requires view in s0.seenSecrets && (a.freshSecretReads ==> view == s0.secret)
    requires view.Some? ==> view.value.gen <= obj.gen
    requires changes || Settles(a, Base(ContentOf(view)), Target(OpFor(obj), obj.spec))
    ensures Reachable(a, s)
    ensures s == SetPass(s0, i, NewPass(obj).(pc := Previewed, stack := Stack(ContentOf(view), view),
                                              previewOp := OpFor(obj), changes := changes))
  {
    var s1 := ReadToGuarded(a, s0, i, obj);
    s := LoadAndPreview(a, s1, i, view, changes);
    assert s.workers == SetPass(s0, i, s.workers[i]).workers;
  }

  /** An answered preview status write. */
  lemma ReportAnswered(a: Assumptions, s0: State, i: nat) returns (s: State)
    requires Reachable(a, s0) && i in s0.workers && s0.workers[i].pc == Previewed && s0.obj.Some?
    requires a.checkedStatus ==> s0.obj.value.rv == s0.workers[i].obj.rv
    requires s0.obj.value.finalizer || !s0.obj.value.deleting
    ensures Reachable(a, s)
    ensures var p := s0.workers[i]; var o := s0.obj.value.(rv := s0.clock + 1, observed := p.obj.gen);
            s == SetPass(s0.(clock := s0.clock + 1, obj := Some(o), seenObjs := s0.seenObjs + {o}), i,
                         p.(pc := Reported, obj := o, fence := s0.obj.value))
  {
    s := Do(a, s0, InPass(i, Report(Acked)));
  }

  const FRESH := Object(1, 1, false, false, false, false, {0}, 0)

  lemma FirstRead(a: Assumptions) returns (s: State)
    ensures Reachable(a, s)
    ensures s == State(1, Some(FRESH), None, {}, {}, map[1 := NewPass(FRESH)], {FRESH}, {None}, [], [], {})
  {
    var s0 := Begin(a, {0});
    s := Do(a, s0, InPass(1, Start(FRESH)));
    assert s.workers == map[1 := NewPass(FRESH)];
  }

  /** Read and add the finalizer. */
  lemma FirstPassToGuarded(a: Assumptions) returns (s: State)
    ensures Reachable(a, s)
    ensures var o := FRESH.(rv := 2, finalizer := true);
            s == State(2, Some(o), None, {}, {}, map[1 := NewPass(FRESH).(pc := Guarded, obj := o)], {FRESH, o}, {None},
                       [], [], {})
  {
    var s0 := FirstRead(a);
    s := Do(a, s0, InPass(1, AddFinalizer(Acked)));
    assert s.workers == map[1 := s.workers[1]];
  }

  /** A first pass up to its deployment; the Secret does not exist yet. */
  lemma FirstPassToDeploy(a: Assumptions) returns (s: State)
    ensures Reachable(a, s) && s.workers.Keys == {1} && s.secret == None && s.live == {} && s.inflight == {}
    ensures s.seenSecrets == {None} && s.results == []
    ensures s.obj == Some(Object(s.clock, 1, false, true, false, false, {0}, 1)) && s.obj.value in s.seenObjs
    ensures var p := s.workers[1];
            p.pc == Deploying && p.obj == s.obj.value && p.cfg == {0} && p.op == Update && p.changes &&
            p.stack == Stack(None, None) && p.mem == EMPTY && p.armed == {} && !p.saveFailed
  {
    var s1 := FirstPassToGuarded(a);
    var s2 := LoadAndPreview(a, s1, 1, None, true);
    var s3 := ReportAnswered(a, s2, 1);
    s := Do(a, s3, InPass(1, Deploy));
  }

  /** The engine creates resource 0, saving its pending entry first. */
  lemma CreateLands(a: Assumptions, s0: State) returns (s: State)
    requires Reachable(a, s0) && 1 in s0.workers && s0.secret == None && s0.inflight == {} && s0.live == {}
    requires var p := s0.workers[1];
             p.pc == Deploying && p.cfg == {0} && p.op == Update && p.stack.handle == None &&
             p.mem == EMPTY && !p.saveFailed
    ensures Reachable(a, s) && s.obj == s0.obj && s.seenObjs == s0.seenObjs && s.results == s0.results
    ensures s.seenSecrets == s0.seenSecrets + {s.secret}
    ensures s.secret == Some(Versioned(s.clock, s0.workers[1].obj.gen, STARTED)) && s.live == {0} && s.inflight == {}
    ensures s.workers.Keys == s0.workers.Keys
    ensures s.workers[1] == s0.workers[1].(stack := Stack(Some(STARTED), s.secret), mem := STARTED,
                                           armed := s0.workers[1].armed + {0})
  {
    s := Do(a, s0, InEngine(1, BeginCreate(0, Acked)));
    assert s.workers[1].mem == STARTED;
    s := Do(a, s, InEngine(1, IssueCreate(0)));
    s := Do(a, s, Env(Land(0)));
  }

  /** The engine records the create and succeeds. */
  lemma CreateRecorded(a: Assumptions, s0: State) returns (s: State)
    requires Reachable(a, s0) && 1 in s0.workers && s0.inflight == {}
    requires var p := s0.workers[1];
             p.pc == Deploying && p.cfg == {0} && p.op == Update && p.mem == STARTED && !p.saveFailed &&
             p.stack.handle == s0.secret
    ensures Reachable(a, s) && s.obj == s0.obj && s.seenObjs == s0.seenObjs && s.live == s0.live && s.inflight == {}
    ensures s.secret == Some(Versioned(s0.clock + 1, s0.workers[1].obj.gen, ONE)) && s.results == s0.results
    ensures s.clock == s0.clock + 1 && s.seenSecrets == s0.seenSecrets + {s.secret}
    ensures s.workers.Keys == s0.workers.Keys && s.workers[1].pc == Deployed
    ensures s.workers[1].obj == s0.workers[1].obj && s.workers[1].changes == s0.workers[1].changes
  {
    var s1 := Do(a, s0, InEngine(1, EndCreate(0, true, Acked)));
    assert s1.workers[1].mem == ONE;
    s := Do(a, s1, InPass(1, Succeed));
  }

  /** The end of a pass that deployed over an object that nobody deleted. */
  lemma ReportAndFinish(a: Assumptions, s0: State) returns (s: State)
    requires Reachable(a, s0) && s0.workers.Keys == {1} && s0.workers[1].pc == Deployed
    requires s0.obj == Some(s0.workers[1].obj) && !s0.obj.value.deleting && s0.workers[1].changes
    ensures s.results == s0.results + [Progress]
    ensures Reachable(a, s) && s.workers == map[] && s.live == s0.live && s.inflight == s0.inflight
    ensures s.secret == s0.secret && s.seenSecrets == s0.seenSecrets
    ensures s.obj == Some(s0.obj.value.(rv := s.clock, observed := s0.obj.value.gen)) && s.obj.value in s.seenObjs
  {
    var s1 := Do(a, s0, InPass(1, ReportDeployed(Acked)));
    s := Do(a, s1, InPass(1, Finish));
    assert s.workers == map[];
  }

  /** A whole first pass: resource 0 is live and recorded, nothing is pending, no pass is under way. */
  lemma DeployedOne(a: Assumptions) returns (s: State)
    ensures Reachable(a, s) && s.workers == map[] && s.live == {0} && s.inflight == {}
    ensures s.secret.Some? && s.secret.value.content == ONE && s.secret.value.gen == 1
    ensures None in s.seenSecrets && s.secret in s.seenSecrets
    ensures s.obj == Some(Object(s.clock, 1, false, true, false, false, {0}, 1)) && s.obj.value in s.seenObjs
    ensures s.results == [Progress]
  {
    s := FirstPassToDeploy(a);
    s := CreateLands(a, s);
    s := CreateRecorded(a, s);
    s := ReportAndFinish(a, s);
  }

  /** The removal of the finalizer. */
  lemma DropFinalizer(a: Assumptions, s0: State, i: nat) returns (s: State)
    requires Reachable(a, s0) && i in s0.workers && s0.obj.Some?
    requires var p := s0.workers[i];
             p.pc == Finalizing && p.obj == s0.obj.value && p.obj.deleting && p.obj.finalizer
    ensures Reachable(a, s) && s.live == s0.live && s.inflight == s0.inflight && s.secret == s0.secret
    ensures s.workers == s0.workers - {i} && s.late == s0.late
    ensures s.results == s0.results + [Quiet(Finalized, s0.workers[i].changes)]
    ensures if s0.obj.value.foreground || s0.obj.value.otherFinalizers
            then s.obj.Some? && var o := s.obj.value;
                 o == s0.obj.value.(finalizer := false, rv := o.rv, observed := o.observed)
            else s.obj.None?
  {
    s := Do(a, s0, InPass(i, RemoveFinalizer(Acked)));
  }

  /** The end of a pass that deploys nothing, over an object it now sees deleted. */
  lemma FinishRemoval(a: Assumptions, s0: State, i: nat) returns (s: State)
    requires Reachable(a, s0) && i in s0.workers && s0.obj.Some?
    requires var p := s0.workers[i];
             p.pc == Reported && !p.changes && p.obj == s0.obj.value && p.obj.deleting && p.obj.finalizer
    ensures Reachable(a, s) && s.live == s0.live && s.inflight == s0.inflight && s.secret == s0.secret
    ensures s.workers == s0.workers - {i} && s.late == s0.late
    ensures if s0.obj.value.foreground || s0.obj.value.otherFinalizers
            then s.obj.Some? && var o := s.obj.value;
                 o == s0.obj.value.(finalizer := false, rv := o.rv, observed := o.observed)
            else s.obj.None?
  {
    var s1 := Do(a, s0, InPass(i, SkipDeploy));
    s := DropFinalizer(a, s1, i);
    assert s.workers == s0.workers - {i};
  }

  /** A pass over a deleted object that loads a snapshot recording nothing: it previews no change and drops
      the finalizer, whatever is live. */
  lemma FinalizesOverEmptySnapshot(a: Assumptions, s0: State, i: nat, view: Option<Secret>) returns (s: State)
    requires Reachable(a, s0) && i !in s0.workers && (a.singleWorker ==> s0.workers == map[])
    requires s0.obj.Some? && s0.obj.value in s0.seenObjs && s0.obj.value.deleting && s0.obj.value.finalizer
    requires view in s0.seenSecrets && (a.freshSecretReads ==> view == s0.secret)
    requires view.Some? ==> view.value.gen <= s0.obj.value.gen
    requires Base(ContentOf(view)).resources == {}
    requires a.pendingBlocks ==> Pending(Base(ContentOf(view))) == {}
    ensures Reachable(a, s) && s.live == s0.live && s.inflight == s0.inflight && s.secret == s0.secret
    ensures if s0.obj.value.foreground || s0.obj.value.otherFinalizers
            then s.obj.Some? && var o := s.obj.value;
                 o == s0.obj.value.(finalizer := false, rv := o.rv, observed := o.observed)
            else s.obj.None?
    ensures s.workers == s0.workers && s.late == s0.late
  {
    var s1 := ReadAndPreview(a, s0, i, s0.obj.value, view, false);
    var s2 := ReportAnswered(a, s1, i);
    s := FinishRemoval(a, s2, i);
    assert s.workers == s0.workers;
  }

  // ----- one run per assumption -----

  /** A second worker finalizes an object whose first deployment has saved nothing yet. */
  lemma OrphanWithTwoWorkers(a: Assumptions) returns (s: State)
    requires !a.singleWorker
    ensures Reachable(a, s) && s.obj.None? && s.live == {0}
  {
    s := FirstPassToDeploy(a);
    s := Do(a, s, Env(RequestDeletion(false)));
    s := FinalizesOverEmptySnapshot(a, s, 2, None);
    s := CreateLands(a, s);
  }

  /** The deletion's pass reads the Secret from a cache that has not seen it created. */
  lemma OrphanWithStaleSecret(a: Assumptions) returns (s: State)
    requires !a.freshSecretReads
    ensures Reachable(a, s) && s.obj.None? && s.live == {0}
  {
    s := DeployedOne(a);
    s := Do(a, s, Env(RequestDeletion(false)));
    s := FinalizesOverEmptySnapshot(a, s, 1, None);
  }

  /** A pass that read the object before its deletion previews an Update without changes; its unchecked
      status write succeeds and refreshes the local object, deletion included. */
  lemma OrphanWithUncheckedStatus(a: Assumptions) returns (s: State)
    requires !a.checkedStatus
    ensures Reachable(a, s) && s.obj.None? && s.live == {0}
  {
    s := DeployedOne(a);
    var before := s.obj.value;
    s := Do(a, s, Env(RequestDeletion(false)));
    s := ReadAndPreview(a, s, 1, before, s.secret, false);
    s := ReportAnswered(a, s, 1);
    s := FinishRemoval(a, s, 1);
  }

  /** A crash between a create and its record leaves a pending entry that the deletion's preview ignores. */
  lemma OrphanWithIgnoredPending(a: Assumptions) returns (s: State)
    requires !a.pendingBlocks
    ensures Reachable(a, s) && s.obj.None? && s.live == {0}
  {
    s := FirstPassToDeploy(a);
    s := CreateLands(a, s);
    s := Do(a, s, InPass(1, Crash));
    assert s.workers == map[];
    s := Do(a, s, Env(RequestDeletion(false)));
    s := FinalizesOverEmptySnapshot(a, s, 1, s.secret);
  }

  /** The engine creates before saving and crashes. */
  lemma OrphanWithoutWriteAhead(a: Assumptions) returns (s: State)
    requires !a.writeAhead
    ensures Reachable(a, s) && s.obj.None? && s.live == {0}
  {
    s := FirstPassToDeploy(a);
    s := Do(a, s, InEngine(1, IssueCreate(0)));
    s := Do(a, s, Env(Land(0)));
    s := Do(a, s, InPass(1, Crash));
    assert s.workers == map[];
    s := Do(a, s, Env(RequestDeletion(false)));
    s := FinalizesOverEmptySnapshot(a, s, 1, None);
  }

  /** A foreground cascading deletion collects the Secret, a dependent of the object, while the object
      still waits for the controller. */
  lemma OrphanWithForegroundDeletion(a: Assumptions) returns (s: State)
    requires !a.ownerFirst
    ensures Reachable(a, s) && s.obj.None? && s.live == {0}
  {
    s := DeployedOne(a);
    s := Do(a, s, Env(RequestDeletion(true)));
    s := Do(a, s, Env(CollectSecret));
    s := FinalizesOverEmptySnapshot(a, s, 1, None);
    s := Do(a, s, Env(EndForeground));
  }

  /** Somebody else strips the finalizer. */
  lemma OrphanWithStrippedFinalizer(a: Assumptions) returns (s: State)
    requires !a.finalizerKept
    ensures Reachable(a, s) && s.obj.None? && s.live == {0}
  {
    s := DeployedOne(a);
    s := Do(a, s, Env(StripFinalizer));
    s := Do(a, s, Env(RequestDeletion(false)));
  }

  /** A first pass that crashes with its first save on the way. */
  lemma CrashedSaving(a: Assumptions) returns (s: State)
    ensures Reachable(a, s) && s.workers == map[] && s.secret == None && s.live == {} && s.inflight == {}
    ensures s.seenSecrets == {None}
    ensures s.obj == Some(Object(s.clock, 1, false, true, false, false, {0}, 1)) && s.obj.value in s.seenObjs
    ensures SecretWrite(s.obj.value, Stack(None, None), STARTED) in s.late
  {
    s := FirstPassToDeploy(a);
    s := Do(a, s, InEngine(1, BeginCreate(0, Refused)));
    assert s.workers[1].mem == STARTED;
    s := Do(a, s, InPass(1, Crash));
    assert s.workers == map[];
  }

  /** Not an orphan, but a trace: even under all the assumptions a save without an answer can arrive when the object
      is gone, and leave a pending entry for a create that was never issued. */
  lemma LateSaveOutlivesObject(a: Assumptions) returns (s: State)
    ensures Reachable(a, s) && s.obj.None? && s.live == {} && s.inflight == {}
    ensures Recorded(s.secret) == STARTED
  {
    s := CrashedSaving(a);
    var author := s.obj.value;
    s := Do(a, s, Env(RequestDeletion(false)));
    s := FinalizesOverEmptySnapshot(a, s, 1, None);
    s := Do(a, s, Env(Arrive(SecretWrite(author, Stack(None, None), STARTED))));
  }

  // ----- the last pass can deploy -----

  /** The engine deletes resource 0 and records it. */
  lemma DeleteRecorded(a: Assumptions, s0: State) returns (s: State)
    requires Reachable(a, s0) && 1 in s0.workers && s0.inflight == {} && s0.live == {0}
    requires var p := s0.workers[1];
             p.pc == Deploying && p.op == Destroy && p.mem == ONE && !p.saveFailed && p.stack.handle == s0.secret
    ensures Reachable(a, s) && s.obj == s0.obj && s.live == {} && s.inflight == {} && s.results == s0.results
    ensures s.workers.Keys == s0.workers.Keys
    ensures s.workers[1].pc == Deploying && s.workers[1].op == Destroy && s.workers[1].mem == EMPTY
    ensures !s.workers[1].saveFailed && s.workers[1].obj == s0.workers[1].obj
    ensures s.workers[1].changes == s0.workers[1].changes
  {
    s := Do(a, s0, InEngine(1, BeginDelete(0, Acked)));
    assert s.workers[1].mem == Checkpoint({0}, {}, {0});
    s := Do(a, s, InEngine(1, IssueDelete(0)));
    s := Do(a, s, InEngine(1, EndDelete(0, Acked)));
    assert s.workers[1].mem == EMPTY;
  }

  /** The end of a pass that has destroyed everything. */
  lemma FinishDestroyed(a: Assumptions, s0: State) returns (s: State)
    requires Reachable(a, s0) && s0.workers.Keys == {1} && s0.obj == Some(s0.workers[1].obj)
    requires var o := s0.obj.value; o.deleting && o.finalizer && !o.foreground && !o.otherFinalizers
    requires var p := s0.workers[1];
             p.pc == Deploying && p.op == Destroy && p.mem == EMPTY && !p.saveFailed && p.changes
    ensures Reachable(a, s) && s.obj.None? && s.live == s0.live && s.inflight == s0.inflight
    ensures s.results == s0.results + [Quiet(Finalized, true)] && s.workers == map[]
  {
    s := Do(a, s0, InPass(1, Succeed));
    s := Do(a, s, InPass(1, ReportDeployed(Acked)));
    s := DropFinalizer(a, s, 1);
    assert s.workers == map[];
  }

  /** A pass over a deleted object with a live resource, up to its deployment. */
  lemma DestroyBegins(a: Assumptions) returns (s: State)
    ensures Reachable(a, s) && s.workers.Keys == {1} && s.obj == Some(s.workers[1].obj)
    ensures s.live == {0} && s.inflight == {}
    ensures var o := s.obj.value; o.deleting && o.finalizer && !o.foreground && !o.otherFinalizers
    ensures var p := s.workers[1];
            p.pc == Deploying && p.op == Destroy && p.mem == ONE && !p.saveFailed && p.changes &&
            p.stack.handle == s.secret
  {
    s := DeployedOne(a);
    s := Do(a, s, Env(RequestDeletion(false)));
    s := ReadAndPreview(a, s, 1, s.obj.value, s.secret, true);
    s := ReportAnswered(a, s, 1);
    s := Do(a, s, InPass(1, Deploy));
  }

  /** The last pass before the loop ends can deploy: over a deleted object with a live resource it destroys the
      resource, drops the finalizer and returns without an error and without a requeue. */
  lemma LastPassDeploys(a: Assumptions) returns (s: State)
    ensures Reachable(a, s) && s.obj.None? && s.live == {} && s.inflight == {} && s.workers == map[]
    ensures s.results != [] && s.results[|s.results| - 1] == Quiet(Finalized, true)
  {
    s := DestroyBegins(a);
    s := DeleteRecorded(a, s);
    s := FinishDestroyed(a, s);
  }

  /** The pass over the object that is then gone returns quietly. */
  lemma GonePassIsQuiet(a: Assumptions) returns (s: State)
    ensures Reachable(a, s) && s.obj.None?
    ensures s.results != [] && s.results[|s.results| - 1] == Quiet(Gone, false)
  {
    s := LastPassDeploys(a);
    s := Do(a, s, InPass(1, NotFound));
  }

  /** The end of a pass that found nothing to do. */
  lemma FinishUnchanged(a: Assumptions, s0: State) returns (s: State)
    requires Reachable(a, s0) && s0.workers.Keys == {1}
    requires var p := s0.workers[1]; p.pc == Reported && !p.changes && !p.obj.deleting
    ensures Reachable(a, s) && s.workers == map[] && s.live == s0.live
    ensures s.results == s0.results + [Quiet(Unchanged, false)]
  {
    s := Do(a, s0, InPass(1, SkipDeploy));
    s := Do(a, s, InPass(1, Finish));
    assert s.workers == map[];
  }

  /** An object that nobody edits needs two passes: the first deploys and asks for another, the second finds nothing to
      do and returns quietly. */
  lemma SecondPassIsQuiet(a: Assumptions) returns (s: State)
    ensures Reachable(a, s) && s.workers == map[] && s.live == {0}
    ensures s.results == [Progress, Quiet(Unchanged, false)]
  {
    var s0 := DeployedOne(a);
    s := ReadAndPreview(a, s0, 1, s0.obj.value, s0.secret, false);
    s := ReportAnswered(a, s, 1);
    s := FinishUnchanged(a, s);
  }

  // ----- a stale object -----

  /** A first pass that ends after its finalizer, and an edit of the object. */
  lemma EditedAfterFinalizer(a: Assumptions) returns (s: State, before: Object)
    ensures Reachable(a, s) && s.workers == map[] && s.secret == None && s.live == {} && s.inflight == {}
    ensures before == FRESH.(rv := 2, finalizer := true) && before in s.seenObjs
    ensures s.obj == Some(Object(3, 2, false, true, false, false, {1}, 0)) && s.obj.value in s.seenObjs
    ensures s.seenSecrets == {None}
  {
    s := FirstPassToGuarded(a);
    before := s.obj.value;
    s := Do(a, s, InPass(1, Abort(false)));
    assert s.workers == map[];
    s := Do(a, s, Env(EditSpec({1})));
  }

  /** The next pass, up to its deployment. */
  lemma DeploysNewGeneration(a: Assumptions) returns (s: State, before: Object)
    ensures Reachable(a, s) && s.workers.Keys == {1} && s.secret == None
    ensures before in s.seenObjs && before.finalizer && before.gen == 1 && s.obj.Some? && s.obj.value.gen == 2
    ensures var p := s.workers[1];
            p.pc == Deploying && p.op == Update && p.cfg == {1} && p.mem == EMPTY && p.obj.gen == 2 &&
            p.stack == Stack(None, None)
  {
    var s0;
    s0, before := EditedAfterFinalizer(a);
    s := ReadAndPreview(a, s0, 1, s0.obj.value, None, true);
    s := ReportAnswered(a, s, 1);
    s := Do(a, s, InPass(1, Deploy));
  }

  /** It saves once, for the object's second generation, and crashes. */
  lemma SavedForNewGeneration(a: Assumptions) returns (s: State, before: Object)
    ensures Reachable(a, s) && s.workers == map[] && before in s.seenObjs && before.finalizer && before.gen == 1
    ensures s.secret.Some? && s.secret.value.gen == 2 && s.secret in s.seenSecrets
  {
    s, before := DeploysNewGeneration(a);
    s := Do(a, s, InEngine(1, BeginCreate(1, Acked)));
    s := Do(a, s, InPass(1, Crash));
    assert s.workers == map[];
  }

  /** A pass that read the object before the edit finds a Secret of a later generation and asks for another pass. */
  lemma StaleObjectIsRequeued(a: Assumptions) returns (s: State)
    ensures Reachable(a, s) && s.workers == map[]
    ensures s.results != [] && s.results[|s.results| - 1] == Failed(true)
  {
    var before;
    s, before := SavedForNewGeneration(a);
    s := ReadToGuarded(a, s, 1, before);
    s := Do(a, s, InPass(1, Load(s.secret)));
    assert s.workers == map[];
  }

  // ----- the deletion policy -----

  /** Nobody ever asks for a foreground cascading deletion. */
  ghost predicate BackgroundOnly(x: Execution) {
    forall k {:trigger x.acts[k]} | 0 <= k < |x.acts| :: x.acts[k] != Env(RequestDeletion(true))
  }

  ghost predicate Orphanless(x: Execution) {
    forall k | 0 <= k < |x.states| && x.states[k].obj.None? :: x.states[k].live == {}
  }

  /** Without a foreground deletion the garbage collector's order makes no difference to a step. */
  lemma StepIgnoresOrder(a: Assumptions, s: State, act: Action, t: State)
    requires Next(a, s, act, t) && act != Env(RequestDeletion(true))
    requires s.obj.Some? ==> !s.obj.value.foreground
    ensures Next(a.(ownerFirst := true), s, act, t)
    ensures t.obj.Some? ==> !t.obj.value.foreground
  {
    match act
    case Env(_) =>
    case InPass(i, step) => PassKeepsForeground(a, s, i, step);
    case InEngine(i, e) => EngineKeepsObject(s, i, e);
  }

  lemma PassKeepsForeground(a: Assumptions, s: State, i: nat, step: PassStep)
    requires PassEnabled(a, s, i, step)
    ensures PassEnabled(a.(ownerFirst := true), s, i, step)
    ensures var t := PassEffect(a, s, i, step);
            t.obj.Some? ==> s.obj.Some? && t.obj.value.foreground == s.obj.value.foreground
  {
  }

  lemma {:induction false} NeverForeground(a: Assumptions, x: Execution, k: nat)
    requires IsExecution(a, x) && Starts(x) && BackgroundOnly(x) && k <= |x.acts|
    ensures x.states[k].obj.Some? ==> !x.states[k].obj.value.foreground
  {
    if k > 0 {
      NeverForeground(a, x, k - 1);
      StepIgnoresOrder(a, x.states[k - 1], x.acts[k - 1], x.states[k]);
    }
  }

  lemma BackgroundRun(a: Assumptions, x: Execution)
    requires IsExecution(a, x) && Starts(x) && BackgroundOnly(x)
    ensures IsExecution(a.(ownerFirst := true), x)
  {
    var b := a.(ownerFirst := true);
    forall k {:trigger x.acts[k]} | 0 <= k < |x.acts| ensures Next(b, x.states[k], x.acts[k], x.states[k + 1]) {
      NeverForeground(a, x, k);
      StepIgnoresOrder(a, x.states[k], x.acts[k], x.states[k + 1]);
    }
  }

  lemma PrefixReaches(a: Assumptions, x: Execution, k: nat)
    requires IsExecution(a, x) && Starts(x) && k <= |x.acts|
    ensures Reachable(a, x.states[k])
  {
    var y := Execution(x.states[..k + 1], x.acts[..k]);
    forall m | 0 <= m < |y.acts| ensures Next(a, y.states[m], y.acts[m], y.states[m + 1]) {
      assert Next(a, x.states[m], x.acts[m], x.states[m + 1]);
    }
    assert IsExecution(a, y) && Starts(y) && y.states[|y.acts|] == x.states[k];
  }

  /** Under the other six assumptions every run without a foreground deletion is orphan free, even where the
      garbage collector would remove the Secret before its owner. */
  lemma BackgroundDeletionIsOrphanFree(a: Assumptions, x: Execution)
    requires AllHold(a.(ownerFirst := true)) && IsExecution(a, x) && Starts(x) && BackgroundOnly(x)
    ensures Orphanless(x)
  {
    BackgroundRun(a, x);
    forall k | 0 <= k < |x.states| && x.states[k].obj.None? ensures x.states[k].live == {} {
      PrefixReaches(a.(ownerFirst := true), x, k);
      OrphanFreedom(a.(ownerFirst := true), x.states[k]);
    }
  }

  /** So with a garbage collector that takes dependents first, what decides is the policy of those who delete:
      under the other six assumptions all the runs they can cause are orphan free exactly if they never ask
      for a foreground deletion. */
  lemma DeletionPolicyDecides(a: Assumptions, mayForeground: bool)
    requires AllHold(a.(ownerFirst := true)) && !a.ownerFirst
    ensures !mayForeground <==>
            forall x | IsExecution(a, x) && Starts(x) && (mayForeground || BackgroundOnly(x)) :: Orphanless(x)
  {
    if mayForeground {
      var s := OrphanWithForegroundDeletion(a);
      var x :| IsExecution(a, x) && Starts(x) && x.states[|x.acts|] == s;
      assert !Orphanless(x);
    } else {
      forall x | IsExecution(a, x) && Starts(x) && BackgroundOnly(x) ensures Orphanless(x) {
        BackgroundDeletionIsOrphanFree(a, x);
      }
    }
  }

  /** Orphan freedom holds exactly under all the assumptions: none of them can be dropped. */
  lemma OrphanFreeExactly(a: Assumptions)
    ensures OrphanFree(a) <==> AllHold(a)
  {
    if AllHold(a) {
      forall s | Reachable(a, s) && s.obj.None? ensures s.live == {} { OrphanFreedom(a, s); }
    } else {
      var s;
      if !a.singleWorker { s := OrphanWithTwoWorkers(a); }
      else if !a.freshSecretReads { s := OrphanWithStaleSecret(a); }
      else if !a.checkedStatus { s := OrphanWithUncheckedStatus(a); }
      else if !a.pendingBlocks { s := OrphanWithIgnoredPending(a); }
      else if !a.writeAhead { s := OrphanWithoutWriteAhead(a); }
      else if !a.ownerFirst { s := OrphanWithForegroundDeletion(a); }
      else { s := OrphanWithStrippedFinalizer(a); }
    }
  }
}
