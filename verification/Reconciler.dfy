/** ReconcileObject as it is written, statement by statement, against a cluster whose other actors may do
    anything they are allowed to between any two of its calls. Every execution of it is a run of the
    protocol, so what is proved of all runs holds of the code's order of calls and early returns. */
module Reconciler {
  import opened Options
  import opened Store
  import opened Protocol
  import opened History
  import opened Safety

  /** The world of one object. */
  class Cluster {
    const a: Assumptions
    ghost const first: State
    var s: State
    ghost var run: Execution

    ghost predicate Valid()
      reads this
    {
      IsExecution(a, run) && Starts(run) && run.states[0] == first && run.states[|run.acts|] == s
    }

    constructor (a: Assumptions, spec: set<Resource>, otherFinalizers: bool)
      ensures Valid() && this.a == a && s == Created(spec, otherFinalizers)
    {
      this.a := a;
      this.first := Created(spec, otherFinalizers);
      this.s := Created(spec, otherFinalizers);
      this.run := Execution([Created(spec, otherFinalizers)], []);
    }

    /** The run continues `before`. */
    ghost predicate Grew(before: Execution)
      reads this
    {
      before.states <= run.states && before.acts <= run.acts
    }

    /** The run has all actions of `before`, in their order. */
    ghost predicate Repeats(before: Execution)
      reads this
    {
      before.acts <= run.acts
    }

    /** Actions decide states. */
    lemma RepeatsGrows(before: Execution)
      requires Valid() && IsExecution(a, before) && before.states[0] == first && Repeats(before)
      ensures Grew(before)
    {
      for k := 0 to |before.acts|
        invariant forall j | 0 <= j <= k :: before.states[j] == run.states[j]
      {
        assert Next(a, before.states[k], before.acts[k], before.states[k + 1]);
        assert Next(a, run.states[k], run.acts[k], run.states[k + 1]);
      }
    }

    lemma ValidIsReachable()
      requires Valid()
      ensures Reachable(a, s)
    {
    }

    /** One action of the protocol. */
    method Perform(act: Action)
      requires Valid() && Enabled(a, s, act)
      modifies this`s, this`run
      ensures Valid() && Next(a, old(s), act, s) && Grew(old(run)) && run.acts == old(run).acts + [act]
    {
      ghost var x := run;
      s := Step(a, s, act);
      run := Execution(x.states + [s], x.acts + [act]);
      forall k | 0 <= k < |run.acts| ensures Next(a, run.states[k], run.acts[k], run.states[k + 1]) {
        if k < |x.acts| { assert Next(a, x.states[k], x.acts[k], x.states[k + 1]); }
      }
    }

    /** Everybody else: any number of actions that are not worker i's. */
    method Others(i: nat)
      requires Valid()
      modifies this`s, this`run
      ensures Valid() && Grew(old(run)) && SamePass(old(s), s, i)
      ensures forall k | |old(run).acts| <= k < |run.acts| :: !ActorIs(run.acts[k], i)
    {
      var steps: nat := *;
      while steps > 0
        invariant Valid() && Grew(old(run)) && SamePass(old(s), s, i)
        invariant forall k | |old(run).acts| <= k < |run.acts| :: !ActorIs(run.acts[k], i)
      {
        var act: Action := *;
        if Enabled(a, s, act) && !ActorIs(act, i) {
          ghost var t := s;
          Perform(act);
          OthersLeavePass(a, t, act, s, i);
        }
        steps := steps - 1;
      }
    }

    ghost predicate InPassAt(i: nat, pc: Pc)
      reads this
    {
      Valid() && i in s.workers && s.workers[i].pc == pc
    }

    /** The pass of worker i has just returned. */
    ghost predicate Returned(i: nat, r: PassResult)
      reads this
    {
      Valid() && i !in s.workers && |s.results| > 0 && s.results[|s.results| - 1] == r
    }
  }

  lemma SecretWasSeen(a: Assumptions, s: State)
    requires Reachable(a, s)
    ensures s.secret in s.seenSecrets
  {
    ReachableKeeps(a, s);
  }

  lemma LocalCopyIsExact(a: Assumptions, s: State, i: nat)
    requires Reachable(a, s) && i in s.workers && Current(s, s.workers[i].obj)
    ensures s.obj == Some(s.workers[i].obj)
  {
    ReachableKeeps(a, s);
    assert PassOk(s, s.workers[i]);
  }

  /** How the pass stands after its status write. */
  lemma StatusReply(a: Assumptions, s: State, i: nat, reply: Reply, next: Pc)
    requires i in s.workers && StatusOk(a, s, s.workers[i].obj, reply)
    requires a.checkedStatus && !reply.Refused? ==> s.obj == Some(s.workers[i].obj)
    ensures var t := WriteStatus(s, i, s.workers[i], reply, next);
            var p := s.workers[i];
            if i in t.workers
            then t.workers[i].pc == next && t.workers[i].changes == p.changes &&
                 (a.checkedStatus ==> var o := t.workers[i].obj; o == p.obj.(rv := o.rv, observed := o.observed))
            else |t.results| > 0 && t.results[|t.results| - 1] == Failed(true) &&
                 (!reply.Acked? || Commit(s, PutStatus(s.obj.value, p.obj.(observed := p.obj.gen))).obj.None?)
  {
  }

  /** How the pass stands after adding the finalizer. */
  lemma AddReply(a: Assumptions, s: State, i: nat, reply: Reply)
    requires Reachable(a, s) && i in s.workers && !s.workers[i].obj.deleting
    requires reply.Refused? || Current(s, s.workers[i].obj)
    ensures var t := AddEffect(s, i, s.workers[i], reply);
            var p := s.workers[i];
            if reply.Acked?
            then i in t.workers && var o := t.workers[i].obj;
                 o == p.obj.(finalizer := true, rv := o.rv) && t.workers[i] == p.(pc := Guarded, obj := o)
            else i !in t.workers && |t.results| > 0 && t.results[|t.results| - 1] == Failed(false)
  {
    if reply != Refused { PutIsFinalizerOnly(a, s, i, true); }
  }

  lemma EngineKeepsPass(a: Assumptions, s: State, i: nat, e: EngineStep)
    requires i in s.workers && EngineAllowed(a, s, s.workers[i], e)
    ensures var t := EngineEffect(s, i, e);
            i in t.workers && t.workers[i].pc == Deploying && t.workers[i].obj == s.workers[i].obj &&
            t.workers[i].changes == s.workers[i].changes
  {
  }

  // ----- the answers a pass gets -----

  datatype Outcome = Ok | Bail | Error

  /** What becomes of a pass's calls, as far as the callees decide: the object's four writes, the load, and the two
      engine operations with what the dry one claims. */
  datatype Answers = Answers(add: Reply, loadFails: bool, preview: Outcome, claims: bool, report: Reply,
                             deploy: Outcome, reportDeployed: Reply, remove: Reply)

  predicate AllGood(ans: Answers) {
    ans.add.Acked? && !ans.loadFails && ans.preview.Ok? && ans.report.Acked? && ans.deploy.Ok? &&
    ans.reportDeployed.Acked? && ans.remove.Acked?
  }

  predicate SettlesPreview(a: Assumptions, p: Pass) { Settles(a, Base(p.stack.snap), Target(OpFor(p.obj), p.cfg)) }

  predicate SettlesDeployment(a: Assumptions, p: Pass) { !p.saveFailed && Settles(a, p.mem, Target(p.op, p.cfg)) }

  /** A write is answered as it should be, or refused because it could not land. */
  predicate Answered(reply: Reply, answer: Reply, lands: bool) { reply == (if lands then answer else Refused) }

  /** The outcome of a real operation: what the engine says, but no success over an unsettled snapshot. */
  predicate Concludes(a: Assumptions, p: Pass, outcome: Outcome, answer: Outcome) {
    outcome == if answer.Ok? && !SettlesDeployment(a, p) then Bail else answer
  }

  /** An action of worker i is what its pass's answers make it; none is a crash. */
  predicate Due(a: Assumptions, s: State, act: Action, i: nat, ans: Answers) {
    ActorIs(act, i) && act.InPass? && i in s.workers ==>
      var p := s.workers[i];
      match act.step
      case AddFinalizer(reply) => Answered(reply, ans.add, Current(s, p.obj))
      case Preview(changes) => ans.preview.Ok? && changes == (ans.claims || !SettlesPreview(a, p))
      case Report(reply) => Answered(reply, ans.report, StatusOk(a, s, p.obj, Acked))
      case ReportDeployed(reply) => Answered(reply, ans.reportDeployed, StatusOk(a, s, p.obj, Acked))
      case RemoveFinalizer(reply) => Answered(reply, ans.remove, Current(s, p.obj))
      case Load(view) => !ans.loadFails
      case Succeed => Concludes(a, p, Ok, ans.deploy)
      case Abort(requeue) =>
        var outcome := if requeue then Bail else Error;
        (match p.pc
         case Guarded => ans.loadFails && !requeue
         case Loaded => ans.preview == outcome
         case _ => Concludes(a, p, outcome, ans.deploy))
      case Crash => false
      case _ => true
  }

  /** What can stop a pass whatever its answers: a conflict on the object, a Secret of a later generation, an object
      that vanishes, and an engine that could not save or settle. */
  predicate HinderedAt(a: Assumptions, s: State, act: Action, i: nat) {
    && ActorIs(act, i) && act.InPass? && i in s.workers
    && var p := s.workers[i];
       match act.step
       case AddFinalizer(reply) =>
         !Current(s, p.obj) || Commit(s, Put(s.obj.value, p.obj.(finalizer := true))).obj.None?
       case Report(reply) =>
         !StatusOk(a, s, p.obj, Acked) || Commit(s, PutStatus(s.obj.value, p.obj.(observed := p.obj.gen))).obj.None?
       case ReportDeployed(reply) =>
         !StatusOk(a, s, p.obj, Acked) || Commit(s, PutStatus(s.obj.value, p.obj.(observed := p.obj.gen))).obj.None?
       case RemoveFinalizer(reply) => !Current(s, p.obj)
       case Load(view) => view.Some? && view.value.gen > p.obj.gen
       case Abort(requeue) => p.pc == Deploying && requeue && !SettlesDeployment(a, p)
       case _ => false
  }

  function StatusAction(i: nat, next: Pc, reply: Reply): Action {
    InPass(i, if next == Reported then Report(reply) else ReportDeployed(reply))
  }

  function StatusAnswer(ans: Answers, next: Pc): Reply {
    if next == Reported then ans.report else ans.reportDeployed
  }

  /** How the pass stands after its status write. */
  predicate StatusOutcome(a: Assumptions, s: State, t: State, i: nat, next: Pc) {
    i in s.workers &&
    if i in t.workers
    then t.workers[i].pc == next && t.workers[i].changes == s.workers[i].changes &&
         (a.checkedStatus ==>
            var o := t.workers[i].obj; o == s.workers[i].obj.(rv := o.rv, observed := o.observed))
    else |t.results| > 0 && t.results[|t.results| - 1] == Failed(true)
  }

  lemma StatusIsDue(a: Assumptions, s: State, i: nat, reply: Reply, next: Pc, ans: Answers)
    requires Reachable(a, s) && i in s.workers && (next == Reported || next == Finalizing)
    requires s.workers[i].pc == if next == Reported then Previewed else Deployed
    requires Answered(reply, StatusAnswer(ans, next), StatusOk(a, s, s.workers[i].obj, Acked))
    ensures var act := StatusAction(i, next, reply);
            && Enabled(a, s, act) && Due(a, s, act, i, ans)
            && StatusOutcome(a, s, Step(a, s, act), i, next)
            && (i !in Step(a, s, act).workers ==> !StatusAnswer(ans, next).Acked? || HinderedAt(a, s, act, i))
  {
    if a.checkedStatus && !reply.Refused? { LocalCopyIsExact(a, s, i); }
    StatusReply(a, s, i, reply, next);
  }

  /** One pass of worker i, with the answers its calls will get. Its methods are those calls; everything else that goes
      on around them is chosen arbitrarily among what the protocol allows. */
  class Attempt {
    const c: Cluster
    const i: nat
    const answers: Answers
    ghost const start: nat

    /** Worker i reads the object and enters a pass. */
    constructor (c: Cluster, i: nat, view: Object, answers: Answers)
      requires c.Valid() && PassEnabled(c.a, c.s, i, Start(view))
      modifies c`s, c`run
      ensures this.c == c && this.i == i && this.answers == answers && this.start == |c.run.acts|
      ensures At(Fetched) && c.s.workers[i] == NewPass(view) && !Hindered()
    {
      this.c := c;
      this.i := i;
      this.answers := answers;
      this.start := |c.run.acts| + 1;
      new;
      c.Perform(InPass(i, Start(view)));
    }

    /** Everything that worker i has done in this pass is due. */
    ghost predicate Honest()
      reads c
    {
      && c.Valid() && start <= |c.run.acts|
      && forall k {:trigger c.run.acts[k]} | start <= k < |c.run.acts| ::
           Due(c.a, c.run.states[k], c.run.acts[k], i, answers)
    }

    /** Something has stopped the pass whatever its answers. */
    ghost predicate Hindered()
      reads c
    {
      |c.run.states| == |c.run.acts| + 1 &&
      exists k {:trigger c.run.acts[k]} :: start <= k < |c.run.acts| &&
        HinderedAt(c.a, c.run.states[k], c.run.acts[k], i)
    }

    ghost predicate At(pc: Pc)
      reads c
    {
      Honest() && c.InPassAt(i, pc)
    }

    ghost predicate Ended(r: PassResult)
      reads c
    {
      Honest() && c.Returned(i, r)
    }

    /** The pass's local object. */
    function Local(): Object
      reads c
      requires i in c.s.workers
    {
      c.s.workers[i].obj
    }

    /** The pass has started a deployment since the run had n actions. */
    ghost predicate DeployedSince(n: nat)
      reads c
    {
      exists k :: n <= k < |c.run.acts| && c.run.acts[k] == InPass(i, Deploy)
    }

    /** One action of worker i, which is due. */
    method Act(act: Action)
      requires Honest() && ActorIs(act, i) && Enabled(c.a, c.s, act) && Due(c.a, c.s, act, i, answers)
      modifies c`s, c`run
      ensures Honest() && Next(c.a, old(c.s), act, c.s) && c.Grew(old(c.run)) && c.run.acts == old(c.run).acts + [act]
      ensures HinderedAt(c.a, old(c.s), act, i) ==> Hindered()
    {
      ghost var x, s := c.run, c.s;
      c.Perform(act);
      forall k {:trigger c.run.acts[k]} | start <= k < |c.run.acts|
        ensures Due(c.a, c.run.states[k], c.run.acts[k], i, answers)
      {
        if k < |x.acts| { assert c.run.states[k] == x.states[k] && c.run.acts[k] == x.acts[k]; }
      }
      assert c.run.states[|x.acts|] == s && c.run.acts[|x.acts|] == act;
    }

    /** Everybody else. */
    method Wait()
      requires Honest()
      modifies c`s, c`run
      ensures Honest() && c.Grew(old(c.run)) && SamePass(old(c.s), c.s, i)
    {
      ghost var x := c.run;
      c.Others(i);
      forall k {:trigger c.run.acts[k]} | start <= k < |c.run.acts|
        ensures Due(c.a, c.run.states[k], c.run.acts[k], i, answers)
      {
        if k < |x.acts| { assert c.run.states[k] == x.states[k] && c.run.acts[k] == x.acts[k]; }
      }
    }

    /** r.Update with the finalizer added (line 78). */
    method UpdateAddingFinalizer(obj: Object) returns (ok: bool, refreshed: Object)
      requires At(Fetched) && !Local().deleting && !Local().finalizer && obj == Local().(finalizer := true)
      modifies c`s, c`run
      ensures c.Grew(old(c.run))
      ensures !ok ==> Ended(Failed(false)) && (!answers.add.Acked? || Hindered())
      ensures ok ==> At(Guarded) && refreshed == obj.(rv := refreshed.rv) && Local() == refreshed
    {
      refreshed := obj;
      Wait();
      var reply := if Current(c.s, Local()) then answers.add else Refused;
      c.ValidIsReachable();
      AddReply(c.a, c.s, i, reply);
      Act(InPass(i, AddFinalizer(reply)));
      ok := reply.Acked?;
      if ok { refreshed := Local(); }
    }

    /** No finalizer to add (lines 75-76). */
    method KeepFinalizer()
      requires At(Fetched) && (Local().deleting || Local().finalizer)
      modifies c`s, c`run
      ensures c.Grew(old(c.run)) && At(Guarded) && Local() == old(Local())
    {
      Act(InPass(i, SkipFinalizer));
    }

    /** getOrCreateStack (lines 84, 180-189): nothing, a generation mismatch or another error. */
    method LoadStack() returns (ok: bool, mismatch: bool)
      requires At(Guarded)
      modifies c`s, c`run
      ensures c.Grew(old(c.run))
      ensures !ok ==> Ended(Failed(mismatch)) && (answers.loadFails || (mismatch && Hindered()))
      ensures ok ==> At(Loaded) && Local() == old(Local())
    {
      Wait();
      if answers.loadFails {
        Act(InPass(i, Abort(false)));
        return false, false;
      }
      c.ValidIsReachable();
      SecretWasSeen(c.a, c.s);
      var view :| view in c.s.seenSecrets && (c.a.freshSecretReads ==> view == c.s.secret);
      mismatch := view.Some? && view.value.gen > Local().gen;
      ok := !mismatch;
      Act(InPass(i, Load(view)));
    }

    /** stack.Update or stack.Destroy as a dry run (line 125). */
    method RunPreview() returns (res: Outcome, changes: bool)
      requires At(Loaded)
      modifies c`s, c`run
      ensures c.Grew(old(c.run)) && res == answers.preview
      ensures res.Bail? ==> Ended(Failed(true))
      ensures res.Error? ==> Ended(Failed(false))
      ensures res.Ok? ==> At(Previewed) && Local() == old(Local()) && c.s.workers[i].changes == changes
    {
      Wait();
      res := answers.preview;
      changes := answers.claims || !SettlesPreview(c.a, c.s.workers[i]);
      match res
      case Ok => Act(InPass(i, Preview(changes)));
      case Bail => Act(InPass(i, Abort(true)));
      case Error => Act(InPass(i, Abort(false)));
    }

    /** The status callback: after the preview (line 135) or after a deployment (line 159). */
    method UpdateStatus(next: Pc) returns (ok: bool)
      requires (next == Reported || next == Finalizing) && At(if next == Reported then Previewed else Deployed)
      modifies c`s, c`run
      ensures c.Grew(old(c.run)) && Honest()
      ensures ok <==> i in c.s.workers
      ensures StatusOutcome(c.a, old(c.s), c.s, i, next)
      ensures !ok ==> !StatusAnswer(answers, next).Acked? || Hindered()
    {
      var reply := if StatusOk(c.a, c.s, Local(), Acked) then StatusAnswer(answers, next) else Refused;
      c.ValidIsReachable();
      StatusIsDue(c.a, c.s, i, reply, next, answers);
      Act(StatusAction(i, next, reply));
      ok := i in c.s.workers;
    }

    method UpdatePreviewStatus() returns (ok: bool, refreshed: Object)
      requires At(Previewed)
      modifies c`s, c`run
      ensures c.Grew(old(c.run))
      ensures !ok ==> Ended(Failed(true)) && (!answers.report.Acked? || Hindered())
      ensures ok ==> At(Reported) && Local() == refreshed && c.s.workers[i].changes == old(c.s).workers[i].changes
      ensures ok && c.a.checkedStatus ==>
                refreshed == old(Local()).(rv := refreshed.rv, observed := refreshed.observed)
    {
      refreshed := Local();
      Wait();
      ok := UpdateStatus(Reported);
      if ok { refreshed := Local(); }
    }

    method UpdateDeployedStatus() returns (ok: bool, refreshed: Object)
      requires At(Deployed)
      modifies c`s, c`run
      ensures c.Grew(old(c.run))
      ensures !ok ==> Ended(Failed(true)) && (!answers.reportDeployed.Acked? || Hindered())
      ensures ok ==> At(Finalizing) && Local() == refreshed && c.s.workers[i].changes == old(c.s).workers[i].changes
      ensures ok && c.a.checkedStatus ==>
                refreshed == old(Local()).(rv := refreshed.rv, observed := refreshed.observed)
    {
      refreshed := Local();
      Wait();
      ok := UpdateStatus(Finalizing);
      if ok { refreshed := Local(); }
    }

    method SkipDeployment()
      requires At(Reported) && !c.s.workers[i].changes
      modifies c`s, c`run
      ensures c.Grew(old(c.run)) && c.run.acts == old(c.run).acts + [InPass(i, SkipDeploy)]
      ensures At(Finalizing) && c.s.workers[i] == old(c.s).workers[i].(pc := Finalizing)
    {
      Act(InPass(i, SkipDeploy));
    }

    /** The engine at work: any number of its steps, among everybody else's. */
    method RunEngine()
      requires At(Deploying)
      modifies c`s, c`run
      ensures c.Grew(old(c.run)) && At(Deploying)
      ensures Local() == old(Local()) && c.s.workers[i].changes == old(c.s).workers[i].changes
    {
      var steps: nat := *;
      while steps > 0
        invariant At(Deploying) && c.Grew(old(c.run))
        invariant Local() == old(Local()) && c.s.workers[i].changes == old(c.s).workers[i].changes
      {
        Wait();
        var e: EngineStep := *;
        if EngineAllowed(c.a, c.s, c.s.workers[i], e) {
          EngineKeepsPass(c.a, c.s, i, e);
          Act(InEngine(i, e));
        }
        steps := steps - 1;
      }
      Wait();
    }

    /** How the operation ends: as the engine says, but with success only over a settled snapshot and answered
        saves. */
    method EndDeployment() returns (res: Outcome)
      requires At(Deploying)
      modifies c`s, c`run
      ensures c.Grew(old(c.run))
      ensures res != answers.deploy ==> res.Bail? && answers.deploy.Ok? && Hindered()
      ensures res.Bail? ==> Ended(Failed(true))
      ensures res.Error? ==> Ended(Failed(false))
      ensures res.Ok? ==> At(Deployed) && c.s.workers[i] == old(c.s).workers[i].(pc := Deployed)
    {
      res := if answers.deploy.Ok? && !SettlesDeployment(c.a, c.s.workers[i]) then Bail else answers.deploy;
      match res
      case Ok => Act(InPass(i, Succeed));
      case Bail => Act(InPass(i, Abort(true)));
      case Error => Act(InPass(i, Abort(false)));
    }

    /** stack.Update or stack.Destroy for real (line 145). */
    method RunDeployment() returns (res: Outcome)
      requires At(Reported) && c.s.workers[i].changes
      modifies c`s, c`run
      ensures c.Grew(old(c.run)) && DeployedSince(|old(c.run).acts|)
      ensures res != answers.deploy ==> res.Bail? && answers.deploy.Ok? && Hindered()
      ensures res.Bail? ==> Ended(Failed(true))
      ensures res.Error? ==> Ended(Failed(false))
      ensures res.Ok? ==> At(Deployed) && Local() == old(Local()) && c.s.workers[i].changes
    {
      Act(InPass(i, Deploy));
      assert c.run.acts[|old(c.run).acts|] == InPass(i, Deploy);
      RunEngine();
      res := EndDeployment();
    }

    /** r.Update with the finalizer removed (line 170). */
    method UpdateRemovingFinalizer() returns (ok: bool)
      requires At(Finalizing) && Local().deleting && Local().finalizer
      modifies c`s, c`run
      ensures c.Grew(old(c.run))
      ensures !ok ==> Ended(Failed(false)) && (!answers.remove.Acked? || Hindered())
      ensures ok ==> Ended(Quiet(Finalized, old(c.s).workers[i].changes))
      ensures ok && AllHold(c.a) ==> c.s.live == {} && c.s.inflight == {}
    {
      Wait();
      var reply := if Current(c.s, Local()) then answers.remove else Refused;
      c.ValidIsReachable();
      if reply.Acked? && AllHold(c.a) { RemovalIsClean(c.a, c.s, i, reply); }
      Act(InPass(i, RemoveFinalizer(reply)));
      ok := reply.Acked?;
    }

    /** The final return (line 177). */
    method Return()
      requires At(Finalizing) && !(Local().deleting && Local().finalizer)
      modifies c`s, c`run
      ensures c.Grew(old(c.run))
      ensures Ended(if old(c.s).workers[i].changes then Progress else Quiet(Unchanged, false))
      ensures AllHold(c.a) && !old(c.s).workers[i].changes ==>
                var o := old(Local()); c.s.live <= Target(OpFor(o), o.spec)
    {
      c.ValidIsReachable();
      if AllHold(c.a) && !c.s.workers[i].changes {
        ReachableSafe(c.a, c.s);
        assert PassSafe(c.s, c.s.workers[i]);
        UnchangedIsSound(c.a, c.s, i);
      }
      Act(InPass(i, Finish));
    }
  }

  // ----- ReconcileObject -----

  /** What a pass's entry in the results says of its return values. */
  predicate Reflects(r: PassResult, requeue: bool, err: bool) {
    match r
    case Quiet(_, _) => !requeue && !err
    case Progress => requeue && !err
    case Failed(again) => requeue == again && err == !again
    case Crashed => false
  }

  /** Lines 75-82: the finalizer is in place before anything else happens. */
  method EnsureFinalizer(t: Attempt, view: Object) returns (ok: bool, obj: Object)
    requires t.At(Fetched) && t.Local() == view
    modifies t.c`s, t.c`run
    ensures t.c.Grew(old(t.c.run))
    ensures !ok ==> t.Ended(Failed(false)) && (!t.answers.add.Acked? || t.Hindered())
    ensures ok ==> t.At(Guarded) && t.Local() == obj && (obj.deleting || obj.finalizer) &&
                   obj == view.(finalizer := obj.finalizer, rv := obj.rv) && (view.deleting ==> obj == view)
  {
    obj := view;
    ok := true;
    if !obj.deleting && !obj.finalizer {
      obj := obj.(finalizer := true);
      ok, obj := t.UpdateAddingFinalizer(obj);
    } else {
      t.KeepFinalizer();
    }
  }

  /** Lines 124-138: preview and write the status. `ok` says that the pass goes on. */
  method PreviewChanges(t: Attempt) returns (ok: bool, requeue: bool, err: bool, hasChanges: bool, obj: Object)
    requires t.At(Loaded)
    modifies t.c`s, t.c`run
    ensures t.c.Grew(old(t.c.run))
    ensures !ok ==> requeue == !err && t.Ended(Failed(requeue)) && (!AllGood(t.answers) || t.Hindered())
    ensures ok ==> t.At(Reported) && t.Local() == obj && t.c.s.workers[t.i].changes == hasChanges
    ensures ok && t.c.a.checkedStatus ==> obj == old(t.Local()).(rv := obj.rv, observed := obj.observed)
  {
    obj := t.Local();
    var previewRes;
    previewRes, hasChanges := t.RunPreview();
    if previewRes.Error? { return false, false, true, hasChanges, obj; }
    if previewRes.Bail? { return false, true, false, hasChanges, obj; }
    ok, obj := t.UpdatePreviewStatus();
    return ok, !ok, false, hasChanges, obj;
  }

  /** Lines 140-165: deploy exactly if the preview reported changes, and write the status again. `ended` says
      that the pass returned from within. */
  method DeployChanges(t: Attempt, hasChanges: bool) returns (ended: bool, requeue: bool, err: bool, obj: Object)
    requires t.At(Reported) && t.c.s.workers[t.i].changes == hasChanges
    modifies t.c`s, t.c`run
    ensures t.c.Grew(old(t.c.run)) && (t.DeployedSince(|old(t.c.run).acts|) <==> hasChanges)
    ensures ended ==> requeue == !err && t.Ended(Failed(requeue)) && (!AllGood(t.answers) || t.Hindered())
    ensures !ended ==> !err && requeue == hasChanges && t.At(Finalizing) && t.Local() == obj &&
                       t.c.s.workers[t.i].changes == hasChanges
    ensures !ended && t.c.a.checkedStatus ==> obj == old(t.Local()).(rv := obj.rv, observed := obj.observed)
  {
    obj := t.Local();
    if !hasChanges {
      t.SkipDeployment();
      return false, false, false, obj;
    }
    var updateRes := t.RunDeployment();
    if updateRes.Error? { return true, false, true, obj; }
    if updateRes.Bail? { return true, true, false, obj; }
    var reported;
    reported, obj := t.UpdateDeployedStatus();
    if !reported { return true, true, false, obj; }
    return false, true, false, obj;
  }

  /** What the last part of a pass returns. */
  function FinalResult(obj: Object, again: bool, err: bool): PassResult {
    if err then Failed(false)
    else if obj.deleting && obj.finalizer then Quiet(Finalized, again)
    else if again then Progress
    else Quiet(Unchanged, false)
  }

  /** Lines 167-177: drop the finalizer of a deleted object, which cancels the requeue, or return as it stands. */
  method Finalize(t: Attempt, obj: Object, again: bool) returns (requeue: bool, err: bool)
    requires t.At(Finalizing) && t.Local() == obj && t.c.s.workers[t.i].changes == again
    modifies t.c`s, t.c`run
    ensures t.c.Grew(old(t.c.run))
    ensures err ==> obj.deleting && obj.finalizer && (!t.answers.remove.Acked? || t.Hindered())
    ensures t.Ended(FinalResult(obj, again, err)) && Reflects(FinalResult(obj, again, err), requeue, err)
    ensures AllHold(t.c.a) && !requeue && !err ==> t.c.s.live <= Target(OpFor(obj), obj.spec)
  {
    if obj.deleting && obj.finalizer {
      var removed := t.UpdateRemovingFinalizer();
      return false, !removed;
    }
    t.Return();
    return again, false;
  }

  /** Lines 124-177, once there is a stack: preview, deploy, finalize. */
  method ApplyStack(t: Attempt) returns (requeue: bool, err: bool)
    requires t.At(Loaded)
    modifies t.c`s, t.c`run
    ensures t.c.Grew(old(t.c.run))
    ensures exists r :: Reflects(r, requeue, err) && t.Ended(r) &&
              (r.Failed? ==> !AllGood(t.answers) || t.Hindered()) &&
              (t.c.a.checkedStatus && old(t.Local()).deleting && old(t.Local()).finalizer ==>
                 r.Failed? || (r.Quiet? && r.why == Finalized))
    ensures AllHold(t.c.a) && !requeue && !err ==>
              var o := old(t.Local()); t.c.s.live <= Target(OpFor(o), o.spec)
  {
    var reported, hasChanges, obj, ended;
    reported, requeue, err, hasChanges, obj := PreviewChanges(t);
    if !reported {
      assert Reflects(Failed(requeue), requeue, err);
      return;
    }
    ended, requeue, err, obj := DeployChanges(t, hasChanges);
    if ended {
      assert Reflects(Failed(requeue), requeue, err);
      return;
    }
    requeue, err := Finalize(t, obj, requeue);
  }

  /** ReconcileObject (lines 72-178) on the object the caller just read. It always returns; everything it does is a
      run of the protocol in which each of its actions is what the answers to its calls make it; its return values
      are those of the pass's recorded result. The result is a failure only if some answer was bad or something
      hindered the pass; a deleted object with the finalizer is otherwise finalized. Under the protocol's
      assumptions a return without error and requeue leaves nothing live beyond what the object asks for. */
  method ReconcileObject(t: Attempt, view: Object) returns (requeue: bool, err: bool)
    requires t.At(Fetched) && t.c.s.workers[t.i] == NewPass(view)
    modifies t.c`s, t.c`run
    ensures t.c.Grew(old(t.c.run))
    ensures exists r :: t.Ended(r) && !r.Crashed? &&
              (r.Quiet? ==> !requeue && !err) && (r.Progress? ==> requeue && !err) &&
              (r.Failed? ==> requeue == r.requeue && err == !r.requeue && (!AllGood(t.answers) || t.Hindered())) &&
              (t.c.a.checkedStatus && view.deleting && view.finalizer ==>
                 r.Failed? || (r.Quiet? && r.why == Finalized))
    ensures AllHold(t.c.a) && !requeue && !err ==> t.c.s.live <= Target(OpFor(view), view.spec)
  {
    var guarded, obj := EnsureFinalizer(t, view);
    if !guarded {
      assert Reflects(Failed(false), false, true);
      return false, true;
    }
    var loaded, mismatch := t.LoadStack();
    if !loaded {
      // on a mismatch the object is stale; requeue
      assert Reflects(Failed(mismatch), mismatch, !mismatch);
      return mismatch, !mismatch;
    }
    requeue, err := ApplyStack(t);
  }
}
