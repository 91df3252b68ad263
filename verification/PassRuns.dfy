/** What a pass has done by the time it returns, told from the actions of the run. */
module PassRuns {
  import opened Options
  import opened Protocol
  import opened Safety

  /** The pass of worker i under way at state k began with the action j. */
  ghost predicate PassFrom(x: Execution, j: nat, k: nat, i: nat) {
    && j < k <= |x.acts| < |x.states| && x.acts[j].InPass? && x.acts[j].i == i && x.acts[j].step.Start?
    && forall m | j < m <= k :: i in x.states[m].workers
  }

  /** Worker i starts a deployment among the actions from j up to k. */
  ghost predicate DeploysIn(x: Execution, j: nat, k: nat, i: nat) {
    exists m :: j <= m < k && m < |x.acts| && x.acts[m] == InPass(i, Deploy)
  }

  /** Worker i's engine takes a step, as every save is, among the actions from j up to k. */
  ghost predicate EngineIn(x: Execution, j: nat, k: nat, i: nat) {
    exists m :: j <= m < k && m < |x.acts| && x.acts[m].InEngine? && x.acts[m].i == i
  }

  /** The pass is where only a deployment leads. */
  predicate HasDeployed(p: Pass) { p.pc == Deploying || p.pc == Deployed || (p.pc == Finalizing && p.changes) }

  predicate DeploysOnChanges(p: Pass) { p.pc == Deploying || p.pc == Deployed ==> p.changes }

  // ----- one action -----

  lemma PassDeploys(a: Assumptions, s: State, i: nat, step: PassStep)
    requires PassEnabled(a, s, i, step) && i in PassEffect(a, s, i, step).workers
    ensures step.Start? <==> i !in s.workers
    ensures var q := PassEffect(a, s, i, step).workers[i];
            if i !in s.workers then q.pc == Fetched
            else DeploysOnChanges(s.workers[i]) ==>
                   DeploysOnChanges(q) && (HasDeployed(q) <==> HasDeployed(s.workers[i]) || step.Deploy?)
  {
  }

  lemma EngineDeploys(a: Assumptions, s: State, i: nat, e: EngineStep)
    requires i in s.workers && EngineAllowed(a, s, s.workers[i], e)
    ensures var t := EngineEffect(s, i, e);
            i in t.workers && s.workers[i].pc == Deploying && t.workers[i].pc == Deploying &&
            t.workers[i].changes == s.workers[i].changes
  {
  }

  /** What one action of worker i means for its pass. */
  lemma OwnAction(a: Assumptions, s: State, act: Action, t: State, i: nat)
    requires Next(a, s, act, t) && ActorIs(act, i) && i in t.workers
    ensures (act.InPass? && act.step.Start?) <==> i !in s.workers
    ensures if i !in s.workers then t.workers[i].pc == Fetched
            else DeploysOnChanges(s.workers[i]) ==>
                   && DeploysOnChanges(t.workers[i])
                   && (HasDeployed(t.workers[i]) <==> HasDeployed(s.workers[i]) || act == InPass(i, Deploy))
                   && (act.InEngine? ==> HasDeployed(s.workers[i]))
  {
    match act
    case InPass(_, step) => PassDeploys(a, s, i, step);
    case InEngine(_, e) => EngineDeploys(a, s, i, e);
  }

  // ----- a pass so far -----

  lemma InGrows(x: Execution, j: nat, k: nat, i: nat)
    requires j <= k < |x.acts|
    ensures DeploysIn(x, j, k + 1, i) <==> DeploysIn(x, j, k, i) || x.acts[k] == InPass(i, Deploy)
    ensures EngineIn(x, j, k + 1, i) <==> EngineIn(x, j, k, i) || (x.acts[k].InEngine? && x.acts[k].i == i)
  {
  }

  /** A pass under way has deployed exactly if it is where only a deployment leads, and its engine has taken no step
      otherwise. */
  lemma {:induction false} PassSoFar(a: Assumptions, x: Execution, k: nat, i: nat) returns (j: nat)
    requires IsExecution(a, x) && x.states[0].workers == map[] && k <= |x.acts| && i in x.states[k].workers
    ensures PassFrom(x, j, k, i) && DeploysOnChanges(x.states[k].workers[i])
    ensures DeploysIn(x, j, k, i) <==> HasDeployed(x.states[k].workers[i])
    ensures EngineIn(x, j, k, i) ==> HasDeployed(x.states[k].workers[i])
    decreases k
  {
    assert k > 0;
    var s, act, t := x.states[k - 1], x.acts[k - 1], x.states[k];
    assert Next(a, s, act, t);
    if !ActorIs(act, i) { OthersLeavePass(a, s, act, t, i); } else { OwnAction(a, s, act, t, i); }
    if i in s.workers {
      j := PassSoFar(a, x, k - 1, i);
    } else {
      j := k - 1;
    }
    InGrows(x, j, k - 1, i);
  }

  // ----- main result -----

  /** What a return without error and requeue says about the pass: it deployed exactly if it finalized over a preview
      with changes, and a pass that did not deploy has made no save. The pass began at j; if the object was gone it
      consists of the return alone. */
  lemma QuietPassDeployedExactly(a: Assumptions, x: Execution, k: nat, i: nat, why: Reason, deployed: bool)
    returns (j: nat)
    requires IsExecution(a, x) && x.states[0].workers == map[]
    requires k < |x.acts| && x.acts[k].InPass? && x.acts[k].i == i
    requires x.states[k + 1].results == x.states[k].results + [Quiet(why, deployed)]
    ensures if why == Gone then j == k else PassFrom(x, j, k, i)
    ensures DeploysIn(x, j, k, i) <==> deployed
    ensures deployed <==> why == Finalized && i in x.states[k].workers && x.states[k].workers[i].changes
    ensures !deployed ==> !EngineIn(x, j, k, i)
  {
    var s, step := x.states[k], x.acts[k].step;
    assert Next(a, s, x.acts[k], x.states[k + 1]);
    QuietSteps(a, s, i, step, why, deployed);
    if why == Gone {
      j := k;
    } else {
      j := PassSoFar(a, x, k, i);
      FinalChanges(a, s, i, step, why, deployed);
    }
  }

  lemma FinalChanges(a: Assumptions, s: State, i: nat, step: PassStep, why: Reason, deployed: bool)
    requires PassEnabled(a, s, i, step) && i in s.workers && why != Gone
    requires PassEffect(a, s, i, step).results == s.results + [Quiet(why, deployed)]
    ensures s.workers[i].pc == Finalizing && (deployed <==> why == Finalized && s.workers[i].changes)
    ensures why == Unchanged ==> !s.workers[i].changes
  {
    QuietSteps(a, s, i, step, why, deployed);
    assert PassEffect(a, s, i, step).results[|s.results|] == Quiet(why, deployed);
  }
}
