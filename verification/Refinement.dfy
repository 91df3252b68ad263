/** The heap's snapshotter and stack take the protocol's steps: a stack, its aliased handle and the API server,
    seen through any reading of snapshots as checkpoints, follow a pass of the protocol while everybody else's
    steps are matched by writes of other clients. */
module Refinement {
  import opened Options
  import opened Store
  import P = Protocol
  import opened References
  import opened Decimal
  import opened Snapshotter
  import History
  import Safety
  import opened Reconciler

  /** The same version, generation and content. */
  ghost predicate Abstracts(code: Snapshot -> P.Checkpoint, v: Option<Versioned<Option<Snapshot>>>,
                            m: Option<P.Secret>)
  {
    match v
    case None => m == None
    case Some(x) => x.content.Some? && m == Some(Versioned(x.rv, x.gen, code(x.content.value)))
  }

  /** The API server's clock and the Secret are the protocol's. */
  ghost predicate ServerIs(code: Snapshot -> P.Checkpoint, api: ApiServer, name: SecretName, s: P.State)
    reads api
  {
    api.Valid() && api.clock == s.clock && Abstracts(code, Versions(Lookup(api.secrets, name)), s.secret)
  }

  /** The stack's object, snapshot and handle are the pass's. */
  ghost predicate StackIs(code: Snapshot -> P.Checkpoint, stack: KubeStack, p: P.Pass)
    reads stack, stack.snapHandle, stack.obj
  {
    && stack.OwnHandle() && stack.obj.generation == p.obj.gen
    && Abstracts(code, Versions(Carried(stack.snapHandle)), p.stack.handle)
    && p.stack.snap == match stack.snap case None => None case Some(x) => Some(code(x))
  }

  ghost predicate Represents(code: Snapshot -> P.Checkpoint, stack: KubeStack, s: P.State, p: P.Pass)
    reads stack, stack.snapHandle, stack.snapshotter.api, stack.obj
  {
    ServerIs(code, stack.snapshotter.api, stack.Name(), s) && StackIs(code, stack, p)
  }

  // ----- one call -----

  /** update.Save refines the protocol's Save, whatever the network does to the call: the step is one the
      protocol allows, it ends the same way, and the stack then represents the protocol's new state. */
  method SaveRefines(stack: KubeStack, next: Snapshot, fate: Reply, ghost code: Snapshot -> P.Checkpoint,
                     ghost s: P.State, ghost i: nat)
    returns (ok: bool, reply: Reply)
    requires i in s.workers && Represents(code, stack, s, s.workers[i])
    modifies stack, stack.snapHandle, stack.snapshotter.api
    ensures P.SaveOk(s, s.workers[i], reply)
    ensures (ok <==> reply.Acked?) && (fate.Refused? ==> reply.Refused?)
    ensures stack.snapHandle == old(stack.snapHandle) || fresh(stack.snapHandle)
    ensures var t := P.Save(s, i, s.workers[i], code(next), reply); Represents(code, stack, t, t.workers[i])
  {
    var lands := fate != Refused &&
                 MayLand(Versions(Lookup(stack.snapshotter.api.secrets, stack.Name())),
                         Versions(Carried(stack.snapHandle)));
    reply := if lands then fate else Refused;
    ok := stack.Save(next, fate);
  }

  /** LoadStack refines the protocol's load of the current Secret: it fails with a generation mismatch exactly
      when the protocol's pass is requeued, and otherwise yields a stack that represents the loaded pass. */
  method LoadRefines(snapshotter: SecretSnapshotter, obj: ApiObject, ghost code: Snapshot -> P.Checkpoint,
                     ghost s: P.State, ghost i: nat)
    returns (stack: KubeStack?, error: LoadError)
    requires i in s.workers && obj.generation == s.workers[i].obj.gen
    requires ServerIs(code, snapshotter.api, SecretNameOf(obj.Ref()), s)
    ensures var t := P.LoadEffect(s, i, s.workers[i], s.secret);
            if stack == null
            then error == GenerationMismatch && i !in t.workers && t.results == s.results + [P.Failed(true)]
            else i in t.workers && t.workers[i].pc == P.Loaded && Represents(code, stack, t, t.workers[i])
    ensures stack != null ==> fresh(stack) && stack.snapshotter == snapshotter && stack.obj == obj &&
                              (stack.snapHandle != null ==> fresh(stack.snapHandle))
  {
    stack, error := LoadStack(snapshotter, obj, true);
  }

  // ----- everybody's steps -----

  /** How a step of the protocol shows on the API server: the clock stands or ticks, and the Secret changes only
      by a write of that tick or by being collected. */
  ghost predicate Shows(s: P.State, t: P.State) {
    && (t.clock == s.clock || t.clock == s.clock + 1)
    && (t.secret != s.secret ==> t.clock == s.clock + 1 && (t.secret.Some? ==> t.secret.value.rv == t.clock))
  }

  lemma PassShows(a: P.Assumptions, s: P.State, i: nat, step: P.PassStep)
    requires P.PassEnabled(a, s, i, step)
    ensures Shows(s, P.PassEffect(a, s, i, step))
  {
    History.PassKeepsSecret(a, s, i, step);
  }

  lemma StepShows(a: P.Assumptions, s: P.State, act: P.Action, t: P.State)
    requires P.Next(a, s, act, t)
    ensures Shows(s, t)
  {
    match act
    case Env(_) =>
    case InPass(i, step) => PassShows(a, s, i, step);
    case InEngine(_, _) =>
  }

  /** The snapshot x is what a step of another client stores, if it stores one. */
  predicate Writes(code: Snapshot -> P.Checkpoint, s: P.State, t: P.State, x: Snapshot) {
    t.secret != s.secret && t.secret.Some? ==> IsInt64(t.secret.value.gen) && t.secret.value.content == code(x)
  }

  /** One step of the protocol, matched on the API server: a write of another record ticks its clock, another
      client's save writes the Secret, and the garbage collector removes it. */
  method Match(c: Cluster, act: P.Action, api: ApiServer, name: SecretName, x: Snapshot, code: Snapshot -> P.Checkpoint)
    requires c.Valid() && P.Enabled(c.a, c.s, act) && ServerIs(code, api, name, c.s)
    requires Writes(code, c.s, P.Step(c.a, c.s, act), x)
    modifies c`s, c`run, api
    ensures c.Valid() && P.Next(c.a, old(c.s), act, c.s) && c.Repeats(old(c.run))
    ensures ServerIs(code, api, name, c.s)
  {
    var s := c.s;
    c.Perform(act);
    StepShows(c.a, s, act, c.s);
    if c.s.secret == s.secret {
      if c.s.clock != s.clock { api.Tick(); }
    } else if c.s.secret.None? {
      api.Remove(name);
    } else {
      EncodeDecode(Some(x), c.s.secret.value.gen);
      api.Overwrite(SecretObject(name, 0, "", EncodeData(Some(x), c.s.secret.value.gen)));
    }
  }

  /** Everybody else: any number of steps that are not worker i's. */
  method OthersMatch(c: Cluster, i: nat, api: ApiServer, name: SecretName, code: Snapshot -> P.Checkpoint)
    requires c.Valid() && ServerIs(code, api, name, c.s)
    modifies c`s, c`run, api
    ensures c.Valid() && c.Repeats(old(c.run)) && Safety.SamePass(old(c.s), c.s, i)
    ensures ServerIs(code, api, name, c.s)
  {
    var steps: nat := *;
    while steps > 0
      invariant c.Valid() && c.Repeats(old(c.run)) && Safety.SamePass(old(c.s), c.s, i)
      invariant ServerIs(code, api, name, c.s)
    {
      var act: P.Action, x: Snapshot := *, *;
      if P.Enabled(c.a, c.s, act) && !Safety.ActorIs(act, i) && Writes(code, c.s, P.Step(c.a, c.s, act), x) {
        ghost var s := c.s;
        Match(c, act, api, name, x, code);
        Safety.OthersLeavePass(c.a, s, act, c.s, i);
      }
      steps := steps - 1;
    }
  }

  // ----- a pass -----

  /** The pass of worker i stands at `pc` with the stack that represents it. */
  ghost predicate Holds(code: Snapshot -> P.Checkpoint, c: Cluster, i: nat, stack: KubeStack, pc: P.Pc)
    reads c, stack, stack.snapHandle, stack.snapshotter.api, stack.obj
  {
    c.InPassAt(i, pc) && Represents(code, stack, c.s, c.s.workers[i])
  }

  function WithReply(e: P.EngineStep, reply: Reply): P.EngineStep
    requires P.IsSave(e)
  {
    e.(reply := reply)
  }

  /** A step of the pass's own that leaves its stack and generation alone. */
  method OwnStep(c: Cluster, i: nat, stack: KubeStack, pc: P.Pc, act: P.Action, next: P.Pc,
                 code: Snapshot -> P.Checkpoint)
    requires Holds(code, c, i, stack, pc) && P.Enabled(c.a, c.s, act)
    requires var t := P.Step(c.a, c.s, act);
             t.secret == c.s.secret && i in t.workers && t.workers[i].pc == next &&
             t.workers[i].stack == c.s.workers[i].stack && t.workers[i].obj.gen == c.s.workers[i].obj.gen
    modifies c`s, c`run, stack.snapshotter.api
    ensures c.Repeats(old(c.run)) && Holds(code, c, i, stack, next)
    ensures c.s == P.Step(c.a, old(c.s), act)
  {
    Match(c, act, stack.snapshotter.api, stack.Name(), Snapshot([], 0), code);
  }

  /** Everybody else's steps while the pass stands. */
  method Wait(c: Cluster, i: nat, stack: KubeStack, pc: P.Pc, code: Snapshot -> P.Checkpoint)
    requires Holds(code, c, i, stack, pc)
    modifies c`s, c`run, stack.snapshotter.api
    ensures c.Repeats(old(c.run)) && Holds(code, c, i, stack, pc) && c.s.workers[i] == old(c.s).workers[i]
  {
    OthersMatch(c, i, stack.snapshotter.api, stack.Name(), code);
  }

  /** LoadStack as a step of the run. */
  method LoadStep(c: Cluster, i: nat, snapshotter: SecretSnapshotter, obj: ApiObject,
                  ghost code: Snapshot -> P.Checkpoint)
    returns (stack: KubeStack?)
    requires c.InPassAt(i, P.Guarded) && obj.generation == c.s.workers[i].obj.gen
    requires ServerIs(code, snapshotter.api, SecretNameOf(obj.Ref()), c.s)
    modifies c`s, c`run
    ensures c.Repeats(old(c.run))
    ensures stack == null ==> c.Returned(i, P.Failed(true))
    ensures ServerIs(code, snapshotter.api, SecretNameOf(obj.Ref()), c.s)
    ensures stack != null ==> fresh(stack) && stack.snapshotter == snapshotter && stack.obj == obj &&
                              (stack.snapHandle != null ==> fresh(stack.snapHandle)) &&
                              Holds(code, c, i, stack, P.Loaded)
  {
    var error;
    stack, error := LoadRefines(snapshotter, obj, code, c.s, i);
    c.ValidIsReachable();
    SecretWasSeen(c.a, c.s);
    c.Perform(P.InPass(i, P.Load(c.s.secret)));
  }

  /** The preview's status write, answered if the server still holds the local object. */
  method ReportStep(c: Cluster, i: nat, stack: KubeStack, code: Snapshot -> P.Checkpoint) returns (ok: bool)
    requires Holds(code, c, i, stack, P.Previewed) && c.a.checkedStatus
    modifies c`s, c`run, stack.snapshotter.api
    ensures c.Repeats(old(c.run)) && c.Valid() && ServerIs(code, stack.snapshotter.api, stack.Name(), c.s)
    ensures !ok ==> c.Returned(i, P.Failed(true))
    ensures ok ==> Holds(code, c, i, stack, P.Reported) && c.s.workers[i].changes == old(c.s).workers[i].changes
  {
    var p := c.s.workers[i];
    var reply := if P.Current(c.s, p.obj) then Acked else Refused;
    c.ValidIsReachable();
    if reply.Acked? { LocalCopyIsExact(c.a, c.s, i); }
    StatusReply(c.a, c.s, i, reply, P.Reported);
    var act := P.InPass(i, P.Report(reply));
    ok := i in P.Step(c.a, c.s, act).workers;
    if ok { OwnStep(c, i, stack, P.Previewed, act, P.Reported, code); }
    else { Match(c, act, stack.snapshotter.api, stack.Name(), Snapshot([], 0), code); }
  }

  /** The protocol's step for a save is its Save, whatever the engine has armed. */
  lemma SaveIsStep(a: P.Assumptions, s: P.State, i: nat, e: P.EngineStep, reply: Reply)
    requires i in s.workers && P.IsSave(e) && P.EngineAllowed(a, s, s.workers[i], WithReply(e, Refused))
    requires P.SaveOk(s, s.workers[i], reply)
    ensures P.EngineAllowed(a, s, s.workers[i], WithReply(e, reply))
    ensures var t, u := P.EngineEffect(s, i, WithReply(e, reply)),
                        P.Save(s, i, s.workers[i], P.MemAfter(s.workers[i].mem, e), reply);
            && t.clock == u.clock && t.secret == u.secret && i in t.workers && t.workers[i].pc == P.Deploying
            && t.workers[i].stack == u.workers[i].stack && t.workers[i].obj == u.workers[i].obj
  {
  }

  /** update.Save as a step of the run: the engine's snapshot in memory is what the heap saves. */
  method SaveStep(c: Cluster, i: nat, stack: KubeStack, e: P.EngineStep, next: Snapshot, fate: Reply,
                  code: Snapshot -> P.Checkpoint)
    returns (ok: bool, reply: Reply)
    requires Holds(code, c, i, stack, P.Deploying) && P.IsSave(e)
    requires P.EngineAllowed(c.a, c.s, c.s.workers[i], WithReply(e, Refused))
    requires P.MemAfter(c.s.workers[i].mem, e) == code(next)
    modifies c`s, c`run, stack, stack.snapHandle, stack.snapshotter.api
    ensures c.Repeats(old(c.run)) && Holds(code, c, i, stack, P.Deploying)
    ensures c.run.acts == old(c.run).acts + [P.InEngine(i, WithReply(e, reply))] && (ok <==> reply.Acked?)
    ensures stack.snapHandle == old(stack.snapHandle) || fresh(stack.snapHandle)
  {
    ok, reply := SaveRefines(stack, next, fate, code, c.s, i);
    SaveIsStep(c.a, c.s, i, e, reply);
    c.Perform(P.InEngine(i, WithReply(e, reply)));
  }

  /** The engine's saves and other steps, any number of them, among everybody else's. */
  method SavesRefine(c: Cluster, i: nat, stack: KubeStack, code: Snapshot -> P.Checkpoint)
    requires Holds(code, c, i, stack, P.Deploying)
    modifies c`s, c`run, stack, stack.snapHandle, stack.snapshotter.api
    ensures c.Repeats(old(c.run)) && Holds(code, c, i, stack, P.Deploying)
  {
    var steps: nat := *;
    while steps > 0
      invariant c.Repeats(old(c.run)) && Holds(code, c, i, stack, P.Deploying)
      invariant stack.snapHandle == old(stack.snapHandle) || fresh(stack.snapHandle)
    {
      Wait(c, i, stack, P.Deploying, code);
      var e: P.EngineStep, next: Snapshot, fate: Reply := *, *, *;
      EngineStepRefines(c, i, stack, e, next, fate, code);
      steps := steps - 1;
    }
  }

  method EngineStepRefines(c: Cluster, i: nat, stack: KubeStack, e: P.EngineStep, next: Snapshot, fate: Reply,
                           code: Snapshot -> P.Checkpoint)
    requires Holds(code, c, i, stack, P.Deploying)
    modifies c`s, c`run, stack, stack.snapHandle, stack.snapshotter.api
    ensures c.Repeats(old(c.run)) && Holds(code, c, i, stack, P.Deploying)
    ensures stack.snapHandle == old(stack.snapHandle) || fresh(stack.snapHandle)
  {
    var p := c.s.workers[i];
    if P.IsSave(e) {
      if P.EngineAllowed(c.a, c.s, p, WithReply(e, Refused)) && P.MemAfter(p.mem, e) == code(next) {
        var _, _ := SaveStep(c, i, stack, e, next, fate, code);
      }
    } else if P.EngineAllowed(c.a, c.s, p, e) {
      OwnStep(c, i, stack, P.Deploying, P.InEngine(i, e), P.Deploying, code);
    }
  }

  /** The preview, which reports changes. */
  method PreviewStep(c: Cluster, i: nat, stack: KubeStack, code: Snapshot -> P.Checkpoint)
    requires Holds(code, c, i, stack, P.Loaded)
    modifies c`s, c`run, stack.snapshotter.api
    ensures c.Repeats(old(c.run)) && Holds(code, c, i, stack, P.Previewed)
    ensures c.s.workers[i].changes
  {
    Wait(c, i, stack, P.Loaded, code);
    OwnStep(c, i, stack, P.Loaded, P.InPass(i, P.Preview(true)), P.Previewed, code);
    Wait(c, i, stack, P.Previewed, code);
  }

  /** The deployment begins. */
  method DeployStep(c: Cluster, i: nat, stack: KubeStack, code: Snapshot -> P.Checkpoint)
    requires Holds(code, c, i, stack, P.Reported) && c.s.workers[i].changes
    modifies c`s, c`run, stack.snapshotter.api
    ensures c.Repeats(old(c.run)) && Holds(code, c, i, stack, P.Deploying)
  {
    Wait(c, i, stack, P.Reported, code);
    OwnStep(c, i, stack, P.Reported, P.InPass(i, P.Deploy), P.Deploying, code);
  }

  /** From the load to the deployment: the preview and its status write. */
  method PreviewRefines(c: Cluster, i: nat, stack: KubeStack, code: Snapshot -> P.Checkpoint) returns (ok: bool)
    requires Holds(code, c, i, stack, P.Loaded) && c.a.checkedStatus
    modifies c`s, c`run, stack.snapshotter.api
    ensures c.Repeats(old(c.run)) && ServerIs(code, stack.snapshotter.api, stack.Name(), c.s)
    ensures if ok then Holds(code, c, i, stack, P.Deploying) else c.Returned(i, P.Failed(true))
  {
    PreviewStep(c, i, stack, code);
    ok := ReportStep(c, i, stack, code);
    if ok { DeployStep(c, i, stack, code); }
  }

  /** A pass from its load to its engine's saves, heap and protocol side by side: LoadStack, the preview, its
      status write and any number of saves, with anything that everybody else does in between, are one run of the
      protocol, and at its end the API server, the cached snapshot and the aliased handle are the run's. */
  method PassRefines(c: Cluster, i: nat, snapshotter: SecretSnapshotter, obj: ApiObject, code: Snapshot -> P.Checkpoint)
    returns (stack: KubeStack?, ended: bool)
    requires c.InPassAt(i, P.Guarded) && c.a.checkedStatus && obj.generation == c.s.workers[i].obj.gen
    requires ServerIs(code, snapshotter.api, SecretNameOf(obj.Ref()), c.s)
    modifies c`s, c`run, snapshotter.api
    ensures c.Grew(old(c.run)) && c.Valid() && ServerIs(code, snapshotter.api, SecretNameOf(obj.Ref()), c.s)
    ensures ended ==> c.Returned(i, P.Failed(true))
    ensures !ended ==> stack != null && stack.snapshotter == snapshotter && stack.obj == obj &&
                       Holds(code, c, i, stack, P.Deploying)
  {
    ghost var before := c.run;
    stack := LoadStep(c, i, snapshotter, obj, code);
    ended := stack == null;
    if !ended {
      var ok := PreviewRefines(c, i, stack, code);
      ended := !ok;
      if ok { SavesRefine(c, i, stack, code); }
    }
    c.RepeatsGrows(before);
  }
}
