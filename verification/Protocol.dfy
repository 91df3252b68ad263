/** The reconcile / snapshot / finalizer protocol as one step machine: the API server with the
    reconciled object and its Secret, the live cloud resources, any number of workers inside
    ReconcileObject, and the environment. Every API write can be answered, applied without an
    answer, or not applied, in which case it may still be on the way; a worker can crash between
    any two steps. */
module Protocol {
  import opened Options
  import opened Store

  /** A cloud resource together with its inputs: changed inputs make another resource. */
  type Resource = nat

  /** What the protocol relies on but does not enforce. Each flag switches one guard on. */
  datatype Assumptions = Assumptions(
    singleWorker: bool,      // one pass at a time for the object
    freshSecretReads: bool,  // LoadStack reads the Secret's current value
    checkedStatus: bool,     // UpdateStatus is refused on a stale resource version
    pendingBlocks: bool,     // the engine never reports "no changes" or success over pending entries
    writeAhead: bool,        // the engine issues a create only after its pending entry was saved
    ownerFirst: bool,        // even in a foreground deletion the Secret is collected only after its owner
    finalizerKept: bool      // nobody else strips the controller's finalizer
  )

  predicate AllHold(a: Assumptions) {
    && a.singleWorker && a.freshSecretReads && a.checkedStatus && a.pendingBlocks
    && a.writeAhead && a.ownerFirst && a.finalizerKept
  }

  /** The reconciled object. `spec` is the resource graph the program generates from it, `foreground` the
      finalizer of a foreground deletion. */
  datatype Object = Object(rv: nat, gen: nat, deleting: bool, finalizer: bool, foreground: bool,
                           otherFinalizers: bool, spec: set<Resource>, observed: nat)

  /** A snapshot: the recorded resources and the pending create and delete entries. */
  datatype Checkpoint = Checkpoint(resources: set<Resource>, creating: set<Resource>, removing: set<Resource>)

  const EMPTY := Checkpoint({}, {}, {})

  type Secret = Versioned<Checkpoint>

  datatype Op = Update | Destroy

  /** kubeStack's cached state. */
  datatype Stack = Stack(snap: Option<Checkpoint>, handle: Option<Secret>)

  datatype Pc = Fetched | Guarded | Loaded | Previewed | Reported | Deploying | Deployed | Finalizing

  /** One pass through ReconcileObject. `obj` is the local copy, refreshed in place by its own
      writes; `cfg` is the specification marshalled for the engine; `fence` is what the server
      held when the preview's status write landed; `mem` is the engine's snapshot in memory and
      `armed` the creates whose pending entry was saved in this pass. */
  datatype Pass = Pass(pc: Pc, obj: Object, cfg: set<Resource>, stack: Stack, previewOp: Op, changes: bool,
                       fence: Object, op: Op, mem: Checkpoint, armed: set<Resource>, saveFailed: bool)

  datatype Reason = Gone | Unchanged | Finalized

  /** What a pass returned: Quiet is no error and no requeue, Progress the requeue after a
      successful deployment, Failed any other requeue or an error. */
  datatype PassResult = Quiet(why: Reason, deployed: bool) | Progress | Failed(requeue: bool) | Crashed

  /** The Secret's history: writes with the handle and snapshot of their author, and collections. */
  datatype LogEntry = Wrote(base: Option<Secret>, snap: Option<Checkpoint>, now: Secret) | Collected

  /** A write that got no answer and may still be on the way: an update of the object's finalizer, a status write, or a
      save with the handle and the snapshot its author held. */
  datatype Request =
    | FinalizerWrite(obj: Object, present: bool)
    | StatusWrite(obj: Object)
    | SecretWrite(obj: Object, stack: Stack, content: Checkpoint)

  datatype State = State(
    clock: nat,
    obj: Option<Object>,
    secret: Option<Secret>,
    live: set<Resource>,
    inflight: set<Resource>,
    workers: map<nat, Pass>,
    seenObjs: set<Object>,
    seenSecrets: set<Option<Secret>>,
    log: seq<LogEntry>,
    results: seq<PassResult>,
    late: set<Request>
  )

  datatype EnvStep =
    | EditSpec(spec: set<Resource>)
    | RequestDeletion(foreground: bool)
    | SetOtherFinalizers(present: bool)
    | EndForeground
    | StripFinalizer
    | CollectSecret
    | Land(r: Resource)
    | Vanish(r: Resource)
    | Arrive(request: Request)

  /** The steps of a pass, in program order. */
  datatype PassStep =
    | NotFound
    | Start(view: Object)
    | AddFinalizer(reply: Reply)
    | SkipFinalizer
    | Load(secretView: Option<Secret>)
    | Preview(changes: bool)
    | Report(reply: Reply)
    | SkipDeploy
    | Deploy
    | Succeed
    | ReportDeployed(reply: Reply)
    | Finish
    | RemoveFinalizer(reply: Reply)
    | Abort(requeue: bool)
    | Crash

  /** The steps of the engine's operation inside a pass. */
  datatype EngineStep =
    | BeginCreate(r: Resource, reply: Reply)
    | IssueCreate(r: Resource)
    | EndCreate(r: Resource, found: bool, reply: Reply)
    | BeginDelete(r: Resource, reply: Reply)
    | IssueDelete(r: Resource)
    | EndDelete(r: Resource, reply: Reply)

  datatype Action = Env(env: EnvStep) | InPass(i: nat, step: PassStep) | InEngine(i: nat, engine: EngineStep)

  // ----- snapshots -----

  function Pending(c: Checkpoint): set<Resource> { c.creating + c.removing }

  /** The resources a snapshot accounts for. */
  function Covered(c: Checkpoint): set<Resource> { c.resources + c.creating + c.removing }

  function Base(snap: Option<Checkpoint>): Checkpoint {
    match snap case None => EMPTY case Some(c) => c
  }

  function Recorded(secret: Option<Secret>): Checkpoint {
    match secret case None => EMPTY case Some(x) => x.content
  }

  function ContentOf(secret: Option<Secret>): Option<Checkpoint> {
    match secret case None => None case Some(x) => Some(x.content)
  }

  function OpFor(o: Object): Op { if o.deleting then Destroy else Update }

  function Target(op: Op, cfg: set<Resource>): set<Resource> {
    match op case Update => cfg case Destroy => {}
  }

  /** The engine may call a snapshot settled for a target: its resources are the target and,
      if pending entries block, none is left. */
  predicate Settles(a: Assumptions, c: Checkpoint, target: set<Resource>) {
    c.resources == target && (a.pendingBlocks ==> Pending(c) == {})
  }

  // ----- the API server -----

  /** Stores a new version of the object; a deleted object without finalizers vanishes instead. */
  function Commit(s: State, o: Object): State {
    if o.deleting && !o.finalizer && !o.foreground && !o.otherFinalizers then s.(clock := s.clock + 1, obj := None)
    else
      var stored := o.(rv := s.clock + 1);
      s.(clock := s.clock + 1, obj := Some(stored), seenObjs := s.seenObjs + {stored})
  }

  /** Update of the main resource: generation and deletion are the server's, a changed spec
      bumps the generation, the status is ignored. */
  function Put(server: Object, sent: Object): Object {
    server.(gen := if sent.spec == server.spec then server.gen else server.gen + 1,
            spec := sent.spec, finalizer := sent.finalizer, otherFinalizers := sent.otherFinalizers)
  }

  /** Update of the status subresource. */
  function PutStatus(server: Object, sent: Object): Object { server.(observed := sent.observed) }

  predicate Current(s: State, local: Object) { s.obj.Some? && s.obj.value.rv == local.rv }

  function SetPass(s: State, i: nat, p: Pass): State { s.(workers := s.workers[i := p]) }

  function EndPass(s: State, i: nat, result: PassResult): State {
    s.(workers := s.workers - {i}, results := s.results + [result])
  }

  /** A write of the Secret with the generation of its author's object. */
  function StoreSecret(s: State, obj: Object, stack: Stack, c: Checkpoint): State {
    var now := Versioned(s.clock + 1, obj.gen, c);
    s.(clock := s.clock + 1, secret := Some(now), seenSecrets := s.seenSecrets + {Some(now)},
       log := s.log + [Wrote(stack.handle, stack.snap, now)])
  }

  /** A write without an answer stays on the way. Where the server has refused it, or a later write has passed it, it
      never arrives. */
  function Send(s: State, w: Request): State { s.(late := s.late + {w}) }

  /** update.Save: one write of the Secret with the local object's generation. An answered write
      becomes the stack's snapshot and handle; any other leaves them and marks the operation. */
  function Save(s: State, i: nat, p: Pass, c: Checkpoint, reply: Reply): State {
    var now := Versioned(s.clock + 1, p.obj.gen, c);
    var s1 := if reply.Refused? then Send(s, SecretWrite(p.obj, p.stack, c)) else StoreSecret(s, p.obj, p.stack, c);
    var p1 := if reply.Acked? then p.(stack := Stack(Some(c), Some(now)), mem := c)
              else p.(mem := c, saveFailed := true);
    SetPass(s1, i, p1)
  }

  predicate SaveOk(s: State, p: Pass, reply: Reply) {
    reply.Refused? || MayLand(s.secret, p.stack.handle)
  }

  predicate IsSave(e: EngineStep) { !e.IssueCreate? && !e.IssueDelete? }

  // ----- guards -----

  predicate StatusOk(a: Assumptions, s: State, local: Object, reply: Reply) {
    reply.Refused? || (s.obj.Some? && (a.checkedStatus ==> s.obj.value.rv == local.rv))
  }

  predicate MayArrive(a: Assumptions, s: State, w: Request) {
    match w
    case FinalizerWrite(obj, _) => Current(s, obj)
    case StatusWrite(obj) => s.obj.Some? && (a.checkedStatus ==> s.obj.value.rv == obj.rv)
    case SecretWrite(_, stack, _) => MayLand(s.secret, stack.handle)
  }

  predicate EnvEnabled(a: Assumptions, s: State, e: EnvStep) {
    match e
    case EditSpec(_) => s.obj.Some?
    case RequestDeletion(foreground) => s.obj.Some? && (s.obj.value.deleting ==> foreground)
    case SetOtherFinalizers(present) =>
      s.obj.Some? && (s.obj.value.deleting && present ==> s.obj.value.otherFinalizers)
    case EndForeground => s.obj.Some? && s.obj.value.foreground
    case StripFinalizer => s.obj.Some? && !a.finalizerKept
    case CollectSecret =>
      s.secret.Some? && (s.obj.None? || (!a.ownerFirst && s.obj.value.deleting && s.obj.value.foreground))
    case Land(r) => r in s.inflight
    case Vanish(r) => r in s.live
    case Arrive(w) => w in s.late && MayArrive(a, s, w)
  }

  predicate PassEnabled(a: Assumptions, s: State, i: nat, step: PassStep) {
    match step
    case NotFound => i !in s.workers && s.obj.None?
    case Start(view) => i !in s.workers && view in s.seenObjs && (a.singleWorker ==> s.workers == map[])
    case _ => i in s.workers && StepAllowed(a, s, s.workers[i], step)
  }

  /** The guards of a pass under way. */
  predicate StepAllowed(a: Assumptions, s: State, p: Pass, step: PassStep) {
    match step
    case NotFound => false
    case Start(_) => false
    case AddFinalizer(reply) =>
      p.pc == Fetched && !p.obj.deleting && !p.obj.finalizer && (reply.Refused? || Current(s, p.obj))
    case SkipFinalizer => p.pc == Fetched && (p.obj.deleting || p.obj.finalizer)
    case Load(view) => p.pc == Guarded && view in s.seenSecrets && (a.freshSecretReads ==> view == s.secret)
    case Preview(changes) =>
      p.pc == Loaded && (changes || Settles(a, Base(p.stack.snap), Target(OpFor(p.obj), p.cfg)))
    case Report(reply) => p.pc == Previewed && StatusOk(a, s, p.obj, reply)
    case SkipDeploy => p.pc == Reported && !p.changes
    case Deploy => p.pc == Reported && p.changes
    case Succeed => p.pc == Deploying && !p.saveFailed && Settles(a, p.mem, Target(p.op, p.cfg))
    case ReportDeployed(reply) => p.pc == Deployed && StatusOk(a, s, p.obj, reply)
    case Finish => p.pc == Finalizing && !(p.obj.deleting && p.obj.finalizer)
    case RemoveFinalizer(reply) =>
      p.pc == Finalizing && p.obj.deleting && p.obj.finalizer && (reply.Refused? || Current(s, p.obj))
    case Abort(requeue) => (p.pc == Guarded && !requeue) || p.pc == Loaded || p.pc == Deploying
    case Crash => true
  }

  /** The guards of the engine. It creates only what an Update wants and deletes only what the target
      leaves out; it records the outcome of a create or delete once that outcome is settled. */
  predicate EngineAllowed(a: Assumptions, s: State, p: Pass, e: EngineStep) {
    p.pc == Deploying &&
    match e
    case BeginCreate(r, reply) =>
      p.op == Update && r in p.cfg && r !in p.mem.resources && SaveOk(s, p, reply)
    case IssueCreate(r) => p.op == Update && r in p.cfg && (a.writeAhead ==> r in p.armed)
    case EndCreate(r, found, reply) =>
      r in p.mem.creating && r !in s.inflight && (found || r !in s.live) && SaveOk(s, p, reply)
    case BeginDelete(r, reply) => r in p.mem.resources && r !in Target(p.op, p.cfg) && SaveOk(s, p, reply)
    case IssueDelete(r) => r in p.mem.removing
    case EndDelete(r, reply) => r in p.mem.removing && r !in s.live && r !in s.inflight && SaveOk(s, p, reply)
  }

  predicate Enabled(a: Assumptions, s: State, act: Action) {
    match act
    case Env(e) => EnvEnabled(a, s, e)
    case InPass(i, step) => PassEnabled(a, s, i, step)
    case InEngine(i, e) => i in s.workers && EngineAllowed(a, s, s.workers[i], e)
  }

  // ----- effects -----

  /** A late write lands. */
  function Arrived(s: State, w: Request): State
    requires !w.SecretWrite? ==> s.obj.Some?
  {
    match w
    case FinalizerWrite(obj, present) => Commit(s, Put(s.obj.value, obj.(finalizer := present)))
    case StatusWrite(obj) => Commit(s, PutStatus(s.obj.value, obj.(observed := obj.gen)))
    case SecretWrite(obj, stack, c) => StoreSecret(s, obj, stack, c)
  }

  function EnvEffect(a: Assumptions, s: State, e: EnvStep): State
    requires EnvEnabled(a, s, e)
  {
    match e
    case EditSpec(spec) => var o := s.obj.value; Commit(s, o.(gen := o.gen + 1, spec := spec))
    case RequestDeletion(foreground) =>
      var o := s.obj.value;
      Commit(s, o.(gen := if o.deleting then o.gen else o.gen + 1, deleting := true,
                   foreground := o.foreground || foreground))
    case SetOtherFinalizers(present) => Commit(s, s.obj.value.(otherFinalizers := present))
    case EndForeground => Commit(s, s.obj.value.(foreground := false))
    case StripFinalizer => Commit(s, s.obj.value.(finalizer := false))
    case CollectSecret =>
      s.(clock := s.clock + 1, secret := None, seenSecrets := s.seenSecrets + {None}, log := s.log + [Collected])
    case Land(r) => s.(inflight := s.inflight - {r}, live := s.live + {r})
    case Vanish(r) => s.(live := s.live - {r})
    case Arrive(w) => Arrived(s.(late := s.late - {w}), w)
  }

  /** The engine's snapshot in memory after a step. */
  function MemAfter(mem: Checkpoint, e: EngineStep): Checkpoint {
    match e
    case BeginCreate(r, _) => mem.(creating := mem.creating + {r})
    case EndCreate(r, found, _) =>
      mem.(creating := mem.creating - {r}, resources := if found then mem.resources + {r} else mem.resources)
    case BeginDelete(r, _) => mem.(removing := mem.removing + {r})
    case EndDelete(r, _) => mem.(removing := mem.removing - {r}, resources := mem.resources - {r})
    case IssueCreate(_) => mem
    case IssueDelete(_) => mem
  }

  function ArmedAfter(armed: set<Resource>, e: EngineStep): set<Resource> {
    match e
    case BeginCreate(r, reply) => if reply.Acked? then armed + {r} else armed
    case EndCreate(r, _, _) => armed - {r}
    case _ => armed
  }

  function EngineEffect(s: State, i: nat, e: EngineStep): State
    requires i in s.workers
  {
    match e
    case IssueCreate(r) => s.(inflight := s.inflight + {r})
    case IssueDelete(r) => s.(live := s.live - {r})
    case BeginCreate(_, reply) => SaveEffect(s, i, e, reply)
    case EndCreate(_, _, reply) => SaveEffect(s, i, e, reply)
    case BeginDelete(_, reply) => SaveEffect(s, i, e, reply)
    case EndDelete(_, reply) => SaveEffect(s, i, e, reply)
  }

  function SaveEffect(s: State, i: nat, e: EngineStep, reply: Reply): State
    requires i in s.workers
  {
    var p := s.workers[i];
    Save(s, i, p.(armed := ArmedAfter(p.armed, e)), MemAfter(p.mem, e), reply)
  }

  /** The status callback: stamps the observed generation, writes the status subresource and, when
      answered, refreshes the local object in place. */
  function WriteStatus(s: State, i: nat, p: Pass, reply: Reply, next: Pc): State
    requires reply != Refused ==> s.obj.Some?
  {
    if reply.Refused? then EndPass(Send(s, StatusWrite(p.obj)), i, Failed(true))
    else
      var s1 := Commit(s, PutStatus(s.obj.value, p.obj.(observed := p.obj.gen)));
      if reply.Lost? || s1.obj.None? then EndPass(s1, i, Failed(true))
      else SetPass(s1, i, p.(pc := next, obj := s1.obj.value,
                             fence := if next == Reported then s.obj.value else p.fence))
  }

  function AddEffect(s: State, i: nat, p: Pass, reply: Reply): State
    requires reply != Refused ==> s.obj.Some?
  {
    if reply.Refused? then EndPass(Send(s, FinalizerWrite(p.obj, true)), i, Failed(false))
    else
      var s1 := Commit(s, Put(s.obj.value, p.obj.(finalizer := true)));
      if reply.Lost? || s1.obj.None? then EndPass(s1, i, Failed(false))
      else SetPass(s1, i, p.(pc := Guarded, obj := s1.obj.value))
  }

  /** LoadStack: refuses a Secret of a later generation than the local object, which requeues. */
  function LoadEffect(s: State, i: nat, p: Pass, view: Option<Secret>): State {
    if view.Some? && view.value.gen > p.obj.gen then EndPass(s, i, Failed(true))
    else SetPass(s, i, p.(pc := Loaded, cfg := p.obj.spec, stack := Stack(ContentOf(view), view)))
  }

  function RemoveEffect(s: State, i: nat, p: Pass, reply: Reply): State
    requires reply != Refused ==> s.obj.Some?
  {
    if reply.Refused? then EndPass(Send(s, FinalizerWrite(p.obj, false)), i, Failed(false))
    else
      var s1 := Commit(s, Put(s.obj.value, p.obj.(finalizer := false)));
      EndPass(s1, i, if reply.Acked? then Quiet(Finalized, p.changes) else Failed(false))
  }

  function NewPass(view: Object): Pass {
    Pass(Fetched, view, view.spec, Stack(None, None), OpFor(view), false, view, OpFor(view), EMPTY, {}, false)
  }

  function PassEffect(a: Assumptions, s: State, i: nat, step: PassStep): State
    requires PassEnabled(a, s, i, step)
  {
    match step
    case NotFound => EndPass(s, i, Quiet(Gone, false))
    case Start(view) => SetPass(s, i, NewPass(view))
    case AddFinalizer(reply) => AddEffect(s, i, s.workers[i], reply)
    case SkipFinalizer => SetPass(s, i, s.workers[i].(pc := Guarded))
    case Load(view) => LoadEffect(s, i, s.workers[i], view)
    case Preview(changes) =>
      var p := s.workers[i];
      SetPass(s, i, p.(pc := Previewed, previewOp := OpFor(p.obj), changes := changes))
    case Report(reply) => WriteStatus(s, i, s.workers[i], reply, Reported)
    case SkipDeploy => SetPass(s, i, s.workers[i].(pc := Finalizing))
    case Deploy =>
      var p := s.workers[i];
      SetPass(s, i, p.(pc := Deploying, op := OpFor(p.obj), mem := Base(p.stack.snap), armed := {},
                       saveFailed := false))
    case Succeed => SetPass(s, i, s.workers[i].(pc := Deployed))
    case ReportDeployed(reply) => WriteStatus(s, i, s.workers[i], reply, Finalizing)
    case Finish => EndPass(s, i, if s.workers[i].changes then Progress else Quiet(Unchanged, false))
    case RemoveFinalizer(reply) => RemoveEffect(s, i, s.workers[i], reply)
    case Abort(requeue) => EndPass(s, i, Failed(requeue))
    case Crash => EndPass(s, i, Crashed)
  }

  function Step(a: Assumptions, s: State, act: Action): State
    requires Enabled(a, s, act)
  {
    match act
    case Env(e) => EnvEffect(a, s, e)
    case InPass(i, step) => PassEffect(a, s, i, step)
    case InEngine(i, e) => EngineEffect(s, i, e)
  }

  // ----- runs -----

  /** A freshly created object that no pass has touched. */
  function Created(spec: set<Resource>, otherFinalizers: bool): State {
    var o := Object(1, 1, false, false, false, otherFinalizers, spec, 0);
    State(1, Some(o), None, {}, {}, map[], {o}, {None}, [], [], {})
  }

  ghost predicate Next(a: Assumptions, s: State, act: Action, t: State) {
    Enabled(a, s, act) && t == Step(a, s, act)
  }

  /** A run: its states and the action between each two. */
  datatype Execution = Execution(states: seq<State>, acts: seq<Action>)

  ghost predicate IsExecution(a: Assumptions, x: Execution) {
    && |x.states| == |x.acts| + 1
    && forall k {:trigger x.acts[k]} | 0 <= k < |x.acts| :: Next(a, x.states[k], x.acts[k], x.states[k + 1])
  }

  ghost predicate Starts(x: Execution) {
    |x.states| > 0 && exists spec, others :: x.states[0] == Created(spec, others)
  }

  ghost predicate Reachable(a: Assumptions, s: State) {
    exists x :: IsExecution(a, x) && Starts(x) && x.states[|x.acts|] == s
  }

  /** The step at j keeps a property of states. */
  ghost predicate KeptAt(x: Execution, inv: State -> bool, j: nat)
    requires j < |x.acts| < |x.states|
  {
    inv(x.states[j]) ==> inv(x.states[j + 1])
  }

  /** What holds at first and is kept by every step holds all along a run. */
  lemma {:induction false} AllAlong(x: Execution, inv: State -> bool, k: nat)
    requires k <= |x.acts| < |x.states| && inv(x.states[0])
    requires forall j: nat | j < k :: KeptAt(x, inv, j)
    ensures inv(x.states[k])
  {
    if k > 0 {
      AllAlong(x, inv, k - 1);
      assert KeptAt(x, inv, k - 1);
    }
  }

  /** Reachable states are closed under steps. */
  lemma ReachNext(a: Assumptions, s: State, act: Action, t: State)
    requires Reachable(a, s) && Next(a, s, act, t)
    ensures Reachable(a, t)
  {
    var x :| IsExecution(a, x) && Starts(x) && x.states[|x.acts|] == s;
    var y := Execution(x.states + [t], x.acts + [act]);
    assert forall k | 0 <= k < |x.states| :: y.states[k] == x.states[k];
    forall k | 0 <= k < |y.acts| ensures Next(a, y.states[k], y.acts[k], y.states[k + 1]) {
      if k < |x.acts| { assert Next(a, x.states[k], x.acts[k], x.states[k + 1]); }
    }
    assert IsExecution(a, y) && Starts(y);
  }
}
