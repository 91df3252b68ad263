/** What holds of every run, with any number of workers, stale reads of the object and of the
    Secret, unchecked status writes and crashes: object versions, the Secret's versions and
    generations, and the chain of checkpoint writes. */
module History {
  import opened Options
  import opened Store
  import opened Protocol

  // ----- invariants -----

  ghost predicate ObjectsOk(s: State) {
    && (forall o | o in s.seenObjs :: o.rv <= s.clock && o.observed <= o.gen)
    && (forall o, p | o in s.seenObjs && p in s.seenObjs && o.rv == p.rv :: o == p)
    && (forall o, p | o in s.seenObjs && p in s.seenObjs && o.rv <= p.rv :: o.gen <= p.gen)
    && (s.obj.Some? ==> s.obj.value in s.seenObjs && forall o | o in s.seenObjs :: o.rv <= s.obj.value.rv)
  }

  ghost predicate SecretsOk(s: State) {
    && s.secret in s.seenSecrets
    && (forall x | x in s.seenSecrets && x.Some? :: x.value.rv <= s.clock)
    && (forall x, y | x in s.seenSecrets && y in s.seenSecrets && x.Some? && y.Some? && x.value.rv == y.value.rv ::
          x == y)
    && (s.obj.Some? ==> forall x | x in s.seenSecrets && x.Some? :: x.value.gen <= s.obj.value.gen)
  }

  /** A local copy and a cached stack as they were read, at one time or another. */
  ghost predicate Authored(s: State, obj: Object, stack: Stack) {
    && obj in s.seenObjs
    && stack.snap == ContentOf(stack.handle)
    && (stack.handle.Some? ==> stack.handle in s.seenSecrets && stack.handle.value.gen <= obj.gen)
  }

  ghost predicate PassOk(s: State, p: Pass) { Authored(s, p.obj, p.stack) }

  ghost predicate LateOk(s: State, w: Request) {
    Authored(s, w.obj, if w.SecretWrite? then w.stack else Stack(None, None))
  }

  ghost predicate PassesOk(s: State) {
    forall i | i in s.workers :: PassOk(s, s.workers[i])
  }

  ghost predicate LatesOk(s: State) {
    forall w | w in s.late :: LateOk(s, w)
  }

  /** The Secret as the log leaves it. */
  function Tip(log: seq<LogEntry>): Option<Secret> {
    if |log| == 0 || log[|log| - 1].Collected? then None else Some(log[|log| - 1].now)
  }

  /** Every write was authored against exactly the Secret the log held just before it: same version,
      same generation, same checkpoint, and the author's cached snapshot was that checkpoint. */
  ghost predicate Chained(log: seq<LogEntry>) {
    forall k | 0 <= k < |log| && log[k].Wrote? ::
      log[k].base == Tip(log[..k]) && log[k].snap == ContentOf(Tip(log[..k]))
  }

  ghost predicate LogOk(s: State) {
    Chained(s.log) && Tip(s.log) == s.secret
  }

  ghost predicate HistoryOk(s: State) {
    ObjectsOk(s) && SecretsOk(s) && PassesOk(s) && LatesOk(s) && LogOk(s)
  }

  // ----- preservation -----

  lemma CommitKeeps(s: State, o: Object)
    requires HistoryOk(s) && s.obj.Some?
    requires s.obj.value.gen <= o.gen && o.observed <= o.gen
    ensures HistoryOk(Commit(s, o))
  {
    var t := Commit(s, o);
    forall i | i in t.workers ensures PassOk(t, t.workers[i]) { assert PassOk(s, s.workers[i]); }
    forall w | w in t.late ensures LateOk(t, w) { assert LateOk(s, w); }
  }

  lemma SetPassKeeps(s: State, i: nat, p: Pass)
    requires HistoryOk(s) && PassOk(s, p)
    ensures HistoryOk(SetPass(s, i, p))
  {
    var t := SetPass(s, i, p);
    forall j | j in t.workers ensures PassOk(t, t.workers[j]) {
      if j != i { assert PassOk(s, s.workers[j]); }
    }
  }

  lemma EndPassKeeps(s: State, i: nat, result: PassResult)
    requires HistoryOk(s)
    ensures HistoryOk(EndPass(s, i, result))
  {
    var t := EndPass(s, i, result);
    forall j | j in t.workers ensures PassOk(t, t.workers[j]) { assert PassOk(s, s.workers[j]); }
  }

  lemma ChainGrows(log: seq<LogEntry>, e: LogEntry)
    requires Chained(log)
    requires e.Wrote? ==> e.base == Tip(log) && e.snap == ContentOf(Tip(log))
    ensures Chained(log + [e])
  {
    var more := log + [e];
    forall k | 0 <= k < |more| && more[k].Wrote?
      ensures more[k].base == Tip(more[..k]) && more[k].snap == ContentOf(Tip(more[..k]))
    {
      assert more[..k] == log[..k];
      assert log[..|log|] == log;
    }
  }

  lemma AcceptedHandle(s: State, obj: Object, stack: Stack)
    requires HistoryOk(s) && Authored(s, obj, stack) && MayLand(s.secret, stack.handle)
    ensures stack.handle == s.secret && stack.snap == ContentOf(s.secret)
  {
  }

  lemma StoreKeeps(s: State, obj: Object, stack: Stack, c: Checkpoint)
    requires HistoryOk(s) && Authored(s, obj, stack) && MayLand(s.secret, stack.handle)
    ensures HistoryOk(StoreSecret(s, obj, stack, c))
  {
    var t := StoreSecret(s, obj, stack, c);
    AcceptedHandle(s, obj, stack);
    ChainGrows(s.log, t.log[|s.log|]);
    if s.obj.Some? { assert obj.gen <= s.obj.value.gen; }
    assert SecretsOk(t);
    forall j | j in t.workers ensures PassOk(t, t.workers[j]) { assert PassOk(s, s.workers[j]); }
    forall w | w in t.late ensures LateOk(t, w) { assert LateOk(s, w); }
  }

  lemma SendKeeps(s: State, w: Request)
    requires HistoryOk(s) && LateOk(s, w)
    ensures HistoryOk(Send(s, w))
  {
    var t := Send(s, w);
    forall i | i in t.workers ensures PassOk(t, t.workers[i]) { assert PassOk(s, s.workers[i]); }
    forall v | v in t.late ensures LateOk(t, v) { if v != w { assert LateOk(s, v); } }
  }

  /** A pass ends with its write on the way. */
  lemma SendEndKeeps(s: State, i: nat, w: Request, r: PassResult)
    requires HistoryOk(s) && i in s.workers && w.obj == s.workers[i].obj && !w.SecretWrite?
    ensures HistoryOk(EndPass(Send(s, w), i, r))
  {
    assert PassOk(s, s.workers[i]);
    SendKeeps(s, w);
    EndPassKeeps(Send(s, w), i, r);
  }

  lemma SaveKeeps(s: State, i: nat, p: Pass, c: Checkpoint, reply: Reply)
    requires HistoryOk(s) && PassOk(s, p) && SaveOk(s, p, reply)
    ensures HistoryOk(Save(s, i, p, c, reply))
  {
    var t := Save(s, i, p, c, reply);
    if reply.Refused? {
      SendKeeps(s, SecretWrite(p.obj, p.stack, c));
      SetPassKeeps(Send(s, SecretWrite(p.obj, p.stack, c)), i, t.workers[i]);
    } else {
      StoreKeeps(s, p.obj, p.stack, c);
      SetPassKeeps(StoreSecret(s, p.obj, p.stack, c), i, t.workers[i]);
    }
  }

  /** Steps that leave the object, the Secret, the log and the workers alone. */
  ghost predicate SameRecords(s: State, t: State) {
    && t.clock == s.clock && t.obj == s.obj && t.secret == s.secret && t.log == s.log
    && t.seenObjs == s.seenObjs && t.seenSecrets == s.seenSecrets && t.workers == s.workers && t.late <= s.late
  }

  lemma SameRecordsKeeps(s: State, t: State)
    requires HistoryOk(s) && SameRecords(s, t)
    ensures HistoryOk(t)
  {
    forall i | i in t.workers ensures PassOk(t, t.workers[i]) { assert PassOk(s, s.workers[i]); }
  }

  lemma CollectKeeps(a: Assumptions, s: State)
    requires HistoryOk(s) && EnvEnabled(a, s, CollectSecret)
    ensures HistoryOk(EnvEffect(a, s, CollectSecret))
  {
    var t := EnvEffect(a, s, CollectSecret);
    ChainGrows(s.log, Collected);
    forall i | i in t.workers ensures PassOk(t, t.workers[i]) { assert PassOk(s, s.workers[i]); }
  }

  predicate WritesObject(e: EnvStep) { !e.CollectSecret? && !e.Land? && !e.Vanish? && !e.Arrive? }

  /** The environment's writes of the object, as one commit. */
  function EnvWrite(o: Object, e: EnvStep): Object {
    match e
    case EditSpec(spec) => o.(gen := o.gen + 1, spec := spec)
    case RequestDeletion(foreground) =>
      o.(gen := if o.deleting then o.gen else o.gen + 1, deleting := true, foreground := o.foreground || foreground)
    case SetOtherFinalizers(present) => o.(otherFinalizers := present)
    case EndForeground => o.(foreground := false)
    case StripFinalizer => o.(finalizer := false)
    case _ => o
  }

  lemma EnvWriteCommits(a: Assumptions, s: State, e: EnvStep)
    requires EnvEnabled(a, s, e) && WritesObject(e)
    ensures EnvEffect(a, s, e) == Commit(s, EnvWrite(s.obj.value, e))
    ensures s.obj.value.gen <= EnvWrite(s.obj.value, e).gen
    ensures EnvWrite(s.obj.value, e).observed == s.obj.value.observed
  {
  }

  lemma WriteKeeps(a: Assumptions, s: State, e: EnvStep)
    requires HistoryOk(s) && EnvEnabled(a, s, e)
    requires WritesObject(e)
    ensures HistoryOk(EnvEffect(a, s, e))
  {
    EnvWriteCommits(a, s, e);
    CommitKeeps(s, EnvWrite(s.obj.value, e));
  }

  /** A copy of the server's own version is the server's object. */
  lemma OwnVersion(s: State, obj: Object)
    requires HistoryOk(s) && obj in s.seenObjs && Current(s, obj)
    ensures s.obj == Some(obj)
  {
  }

  lemma LateFinalizerKeeps(s: State, obj: Object, present: bool)
    requires HistoryOk(s) && obj in s.seenObjs && Current(s, obj)
    ensures HistoryOk(Commit(s, Put(s.obj.value, obj.(finalizer := present))))
  {
    OwnVersion(s, obj);
    CommitKeeps(s, s.obj.value.(finalizer := present));
  }

  lemma LateStatusKeeps(s: State, obj: Object)
    requires HistoryOk(s) && obj in s.seenObjs && s.obj.Some?
    ensures HistoryOk(Commit(s, PutStatus(s.obj.value, obj.(observed := obj.gen))))
  {
    CommitKeeps(s, PutStatus(s.obj.value, obj.(observed := obj.gen)));
  }

  lemma ArrivedKeeps(a: Assumptions, s: State, w: Request)
    requires HistoryOk(s) && LateOk(s, w) && MayArrive(a, s, w)
    ensures HistoryOk(Arrived(s, w))
  {
    match w
    case FinalizerWrite(obj, present) => LateFinalizerKeeps(s, obj, present);
    case StatusWrite(obj) => LateStatusKeeps(s, obj);
    case SecretWrite(obj, stack, c) => StoreKeeps(s, obj, stack, c);
  }

  lemma ArriveKeeps(a: Assumptions, s: State, w: Request)
    requires HistoryOk(s) && EnvEnabled(a, s, Arrive(w))
    ensures HistoryOk(EnvEffect(a, s, Arrive(w)))
  {
    assert LateOk(s, w);
    SameRecordsKeeps(s, s.(late := s.late - {w}));
    ArrivedKeeps(a, s.(late := s.late - {w}), w);
  }

  lemma EnvKeeps(a: Assumptions, s: State, e: EnvStep)
    requires HistoryOk(s) && EnvEnabled(a, s, e)
    ensures HistoryOk(EnvEffect(a, s, e))
  {
    match e
    case EditSpec(_) => WriteKeeps(a, s, e);
    case RequestDeletion(_) => WriteKeeps(a, s, e);
    case SetOtherFinalizers(_) => WriteKeeps(a, s, e);
    case EndForeground => WriteKeeps(a, s, e);
    case StripFinalizer => WriteKeeps(a, s, e);
    case CollectSecret => CollectKeeps(a, s);
    case Land(r) => SameRecordsKeeps(s, EnvEffect(a, s, e));
    case Vanish(r) => SameRecordsKeeps(s, EnvEffect(a, s, e));
    case Arrive(w) => ArriveKeeps(a, s, w);
  }

  lemma SaveEffectKeeps(s: State, i: nat, e: EngineStep, reply: Reply)
    requires HistoryOk(s) && i in s.workers && SaveOk(s, s.workers[i], reply)
    ensures HistoryOk(SaveEffect(s, i, e, reply))
  {
    var p := s.workers[i];
    assert PassOk(s, p);
    SaveKeeps(s, i, p.(armed := ArmedAfter(p.armed, e)), MemAfter(p.mem, e), reply);
  }

  lemma EngineKeeps(a: Assumptions, s: State, i: nat, e: EngineStep)
    requires HistoryOk(s) && i in s.workers && EngineAllowed(a, s, s.workers[i], e)
    ensures HistoryOk(EngineEffect(s, i, e))
  {
    match e
    case IssueCreate(r) => SameRecordsKeeps(s, EngineEffect(s, i, e));
    case IssueDelete(r) => SameRecordsKeeps(s, EngineEffect(s, i, e));
    case BeginCreate(_, reply) => SaveEffectKeeps(s, i, e, reply);
    case EndCreate(_, _, reply) => SaveEffectKeeps(s, i, e, reply);
    case BeginDelete(_, reply) => SaveEffectKeeps(s, i, e, reply);
    case EndDelete(_, reply) => SaveEffectKeeps(s, i, e, reply);
  }

  lemma StatusKeeps(s: State, i: nat, reply: Reply, next: Pc)
    requires HistoryOk(s) && i in s.workers && (reply != Refused ==> s.obj.Some?)
    ensures HistoryOk(WriteStatus(s, i, s.workers[i], reply, next))
  {
    var p := s.workers[i];
    assert PassOk(s, p);
    if reply.Refused? {
      SendEndKeeps(s, i, StatusWrite(p.obj), Failed(true));
    } else {
      var s1 := Commit(s, PutStatus(s.obj.value, p.obj.(observed := p.obj.gen)));
      CommitKeeps(s, PutStatus(s.obj.value, p.obj.(observed := p.obj.gen)));
      if reply.Lost? || s1.obj.None? {
        EndPassKeeps(s1, i, Failed(true));
      } else {
        assert PassOk(s1, p);
        SetPassKeeps(s1, i, p.(pc := next, obj := s1.obj.value,
                               fence := if next == Reported then s.obj.value else p.fence));
      }
    }
  }

  lemma PutFinalizer(s: State, i: nat, add: bool)
    requires HistoryOk(s) && i in s.workers && Current(s, s.workers[i].obj)
    ensures s.workers[i].obj == s.obj.value
    ensures Put(s.obj.value, s.workers[i].obj.(finalizer := add)) == s.obj.value.(finalizer := add)
  {
    assert PassOk(s, s.workers[i]);
  }

  lemma AddKeeps(s: State, i: nat, reply: Reply)
    requires HistoryOk(s) && i in s.workers && (reply.Refused? || Current(s, s.workers[i].obj))
    ensures HistoryOk(AddEffect(s, i, s.workers[i], reply))
  {
    var p := s.workers[i];
    if reply.Refused? {
      SendEndKeeps(s, i, FinalizerWrite(p.obj, true), Failed(false));
    } else {
      PutFinalizer(s, i, true);
      CommitKeeps(s, s.obj.value.(finalizer := true));
      var s1 := Commit(s, s.obj.value.(finalizer := true));
      if reply.Lost? || s1.obj.None? {
        EndPassKeeps(s1, i, Failed(false));
      } else {
        assert PassOk(s, p);
        SetPassKeeps(s1, i, p.(pc := Guarded, obj := s1.obj.value));
      }
    }
  }

  lemma RemoveKeeps(s: State, i: nat, reply: Reply)
    requires HistoryOk(s) && i in s.workers && (reply.Refused? || Current(s, s.workers[i].obj))
    ensures HistoryOk(RemoveEffect(s, i, s.workers[i], reply))
  {
    if reply.Refused? {
      SendEndKeeps(s, i, FinalizerWrite(s.workers[i].obj, false), Failed(false));
    } else {
      PutFinalizer(s, i, false);
      CommitKeeps(s, s.obj.value.(finalizer := false));
      EndPassKeeps(Commit(s, s.obj.value.(finalizer := false)), i,
                   if reply.Acked? then Quiet(Finalized, s.workers[i].changes) else Failed(false));
    }
  }

  lemma LoadKeeps(s: State, i: nat, view: Option<Secret>)
    requires HistoryOk(s) && i in s.workers && view in s.seenSecrets
    ensures HistoryOk(LoadEffect(s, i, s.workers[i], view))
  {
    var p := s.workers[i];
    assert PassOk(s, p);
    if view.Some? && view.value.gen > p.obj.gen {
      EndPassKeeps(s, i, Failed(true));
    } else {
      SetPassKeeps(s, i, p.(pc := Loaded, cfg := p.obj.spec, stack := Stack(ContentOf(view), view)));
    }
  }

  /** A step that moves the pass on without touching its object or its stack. */
  lemma MoveKeeps(s: State, i: nat, q: Pass)
    requires HistoryOk(s) && i in s.workers && q.obj == s.workers[i].obj && q.stack == s.workers[i].stack
    ensures HistoryOk(SetPass(s, i, q))
  {
    assert PassOk(s, s.workers[i]);
    SetPassKeeps(s, i, q);
  }

  lemma PassKeeps(a: Assumptions, s: State, i: nat, step: PassStep)
    requires HistoryOk(s) && PassEnabled(a, s, i, step)
    ensures HistoryOk(PassEffect(a, s, i, step))
  {
    match step
    case NotFound => EndPassKeeps(s, i, Quiet(Gone, false));
    case Start(view) => SetPassKeeps(s, i, NewPass(view));
    case AddFinalizer(reply) => AddKeeps(s, i, reply);
    case SkipFinalizer => MoveKeeps(s, i, PassEffect(a, s, i, step).workers[i]);
    case Load(view) => LoadKeeps(s, i, view);
    case Preview(_) => MoveKeeps(s, i, PassEffect(a, s, i, step).workers[i]);
    case Report(reply) => StatusKeeps(s, i, reply, Reported);
    case SkipDeploy => MoveKeeps(s, i, PassEffect(a, s, i, step).workers[i]);
    case Deploy => MoveKeeps(s, i, PassEffect(a, s, i, step).workers[i]);
    case Succeed => MoveKeeps(s, i, PassEffect(a, s, i, step).workers[i]);
    case ReportDeployed(reply) => StatusKeeps(s, i, reply, Finalizing);
    case Finish => EndPassKeeps(s, i, if s.workers[i].changes then Progress else Quiet(Unchanged, false));
    case RemoveFinalizer(reply) => RemoveKeeps(s, i, reply);
    case Abort(requeue) => EndPassKeeps(s, i, Failed(requeue));
    case Crash => EndPassKeeps(s, i, Crashed);
  }

  lemma StepKeeps(a: Assumptions, s: State, act: Action, t: State)
    requires HistoryOk(s) && Next(a, s, act, t)
    ensures HistoryOk(t)
  {
    match act
    case Env(e) => EnvKeeps(a, s, e);
    case InPass(i, step) => PassKeeps(a, s, i, step);
    case InEngine(i, e) => EngineKeeps(a, s, i, e);
  }

  lemma RunKeeps(a: Assumptions, x: Execution, k: nat)
    requires IsExecution(a, x) && HistoryOk(x.states[0]) && k <= |x.acts|
    ensures HistoryOk(x.states[k])
  {
    var inv := s => HistoryOk(s);
    forall j: nat | j < k ensures KeptAt(x, inv, j) {
      assert Next(a, x.states[j], x.acts[j], x.states[j + 1]);
      if inv(x.states[j]) { StepKeeps(a, x.states[j], x.acts[j], x.states[j + 1]); }
    }
    AllAlong(x, inv, k);
  }

  lemma ReachableKeeps(a: Assumptions, s: State)
    requires Reachable(a, s)
    ensures HistoryOk(s)
  {
    var x :| IsExecution(a, x) && Starts(x) && x.states[|x.acts|] == s;
    RunKeeps(a, x, |x.acts|);
  }

  // ----- main results -----

  /** No lost update: in every reachable state the writes of the Secret form one chain, each authored
      against the write immediately before it (or against no Secret), and the chain ends in the Secret. */
  lemma NoLostUpdate(a: Assumptions, s: State)
    requires Reachable(a, s)
    ensures Chained(s.log) && Tip(s.log) == s.secret
  {
    ReachableKeeps(a, s);
  }

  /** A handle the server accepts is the server's Secret, not merely one of the same version, and the snapshot
      cached with it is the stored one: every save extends what a fresh load would have read. */
  lemma AcceptedHandleIsCurrent(a: Assumptions, s: State, i: nat)
    requires Reachable(a, s) && i in s.workers && MayLand(s.secret, s.workers[i].stack.handle)
    ensures s.workers[i].stack == Stack(ContentOf(s.secret), s.secret)
  {
    ReachableKeeps(a, s);
    AcceptedHandle(s, s.workers[i].obj, s.workers[i].stack);
  }

  /** An update of the main resource lands only from the server's own version, so it changes the
      finalizer and nothing else: it never bumps the generation. */
  lemma PutIsFinalizerOnly(a: Assumptions, s: State, i: nat, add: bool)
    requires Reachable(a, s) && i in s.workers && Current(s, s.workers[i].obj)
    ensures s.workers[i].obj == s.obj.value
    ensures Put(s.obj.value, s.workers[i].obj.(finalizer := add)) == s.obj.value.(finalizer := add)
  {
    ReachableKeeps(a, s);
    PutFinalizer(s, i, add);
  }

  /** Two workers race to write the Secret: once one write landed, the other's handle is refused. */
  lemma RaceHasOneWinner(a: Assumptions, s: State, i: nat, e: EngineStep, reply: Reply, j: nat)
    requires Reachable(a, s) && i in s.workers && j in s.workers && i != j
    requires SaveOk(s, s.workers[i], reply) && reply != Refused
    ensures !MayLand(SaveEffect(s, i, e, reply).secret, SaveEffect(s, i, e, reply).workers[j].stack.handle)
  {
    ReachableKeeps(a, s);
    var q := s.workers[j];
    assert PassOk(s, q);
    if q.stack.handle.Some? { assert q.stack.handle.value.rv <= s.clock; }
  }

  lemma SaveKeepsGeneration(s: State, i: nat, e: EngineStep, reply: Reply)
    requires HistoryOk(s) && i in s.workers && SaveOk(s, s.workers[i], reply) && s.secret.Some?
    ensures SaveEffect(s, i, e, reply).secret.Some?
    ensures s.secret.value.gen <= SaveEffect(s, i, e, reply).secret.value.gen
  {
    var p := s.workers[i];
    assert PassOk(s, p);
    if !reply.Refused? { AcceptedHandle(s, p.obj, p.stack); }
  }

  /** Only the engine's saves and the collector write the Secret. */
  lemma PassKeepsSecret(a: Assumptions, s: State, i: nat, step: PassStep)
    requires PassEnabled(a, s, i, step)
    ensures PassEffect(a, s, i, step).secret == s.secret
  {
  }

  lemma EngineKeepsGeneration(s: State, a: Assumptions, i: nat, e: EngineStep)
    requires HistoryOk(s) && i in s.workers && EngineAllowed(a, s, s.workers[i], e) && s.secret.Some?
    ensures EngineEffect(s, i, e).secret.Some?
    ensures s.secret.value.gen <= EngineEffect(s, i, e).secret.value.gen
  {
    match e
    case IssueCreate(_) =>
    case IssueDelete(_) =>
    case BeginCreate(_, reply) => SaveKeepsGeneration(s, i, e, reply);
    case EndCreate(_, _, reply) => SaveKeepsGeneration(s, i, e, reply);
    case BeginDelete(_, reply) => SaveKeepsGeneration(s, i, e, reply);
    case EndDelete(_, reply) => SaveKeepsGeneration(s, i, e, reply);
  }

  predicate ArrivesAtSecret(e: EnvStep) { e.Arrive? && e.request.SecretWrite? }

  lemma EnvKeepsSecret(a: Assumptions, s: State, e: EnvStep)
    requires EnvEnabled(a, s, e)
    ensures EnvEffect(a, s, e).secret == s.secret || (e.CollectSecret? && EnvEffect(a, s, e).secret.None?) ||
            (ArrivesAtSecret(e) && EnvEffect(a, s, e).secret.Some?)
  {
  }

  lemma ArriveKeepsGeneration(a: Assumptions, s: State, w: Request)
    requires HistoryOk(s) && EnvEnabled(a, s, Arrive(w)) && w.SecretWrite? && s.secret.Some?
    ensures s.secret.value.gen <= EnvEffect(a, s, Arrive(w)).secret.value.gen
  {
    assert LateOk(s, w);
    AcceptedHandle(s, w.obj, w.stack);
  }

  lemma StepKeepsGeneration(a: Assumptions, s: State, act: Action, t: State)
    requires HistoryOk(s) && Next(a, s, act, t) && s.secret.Some? && t.secret.Some?
    ensures s.secret.value.gen <= t.secret.value.gen
  {
    match act
    case Env(e) =>
      if ArrivesAtSecret(e) { ArriveKeepsGeneration(a, s, e.request); } else { EnvKeepsSecret(a, s, e); }
    case InPass(i, step) => PassKeepsSecret(a, s, i, step);
    case InEngine(i, e) => EngineKeepsGeneration(s, a, i, e);
  }

  lemma GenerationAlong(a: Assumptions, x: Execution, k: nat)
    requires IsExecution(a, x) && Reachable(a, x.states[0]) && k < |x.acts|
    requires x.states[k].secret.Some? && x.states[k + 1].secret.Some?
    ensures x.states[k].secret.value.gen <= x.states[k + 1].secret.value.gen
  {
    ReachableKeeps(a, x.states[0]);
    RunKeeps(a, x, k);
    StepKeepsGeneration(a, x.states[k], x.acts[k], x.states[k + 1]);
  }

  /** While a Secret exists its stored generation never decreases. */
  lemma {:induction false} SecretGenerationNeverFalls(a: Assumptions, x: Execution, j: nat, k: nat)
    requires IsExecution(a, x) && Reachable(a, x.states[0]) && j <= k <= |x.acts|
    requires forall m | j <= m <= k :: x.states[m].secret.Some?
    ensures x.states[j].secret.value.gen <= x.states[k].secret.value.gen
    decreases k
  {
    if j < k {
      SecretGenerationNeverFalls(a, x, j, k - 1);
      GenerationAlong(a, x, k - 1);
    }
  }

  /** While both exist, the Secret's generation is at most the object's. */
  lemma SecretNeverAheadOfObject(a: Assumptions, s: State)
    requires Reachable(a, s) && s.obj.Some? && s.secret.Some?
    ensures s.secret.value.gen <= s.obj.value.gen
  {
    ReachableKeeps(a, s);
  }

  lemma StatusKeepsGeneration(s: State, i: nat, reply: Reply, next: Pc)
    requires i in s.workers && (reply != Refused ==> s.obj.Some?)
    requires s.obj.Some? && WriteStatus(s, i, s.workers[i], reply, next).obj.Some?
    ensures var t := WriteStatus(s, i, s.workers[i], reply, next);
            t.obj == s.obj || (t.obj.value.gen == s.obj.value.gen && t.obj.value.rv == s.clock + 1)
  {
  }

  lemma FinalizerKeepsGeneration(s: State, i: nat, add: bool)
    requires HistoryOk(s) && i in s.workers && Current(s, s.workers[i].obj)
    ensures var t := Commit(s, Put(s.obj.value, s.workers[i].obj.(finalizer := add)));
            t.obj.Some? ==> t.obj.value.gen == s.obj.value.gen && t.obj.value.rv == s.clock + 1
  {
    PutFinalizer(s, i, add);
  }

  lemma PassKeepsGeneration(a: Assumptions, s: State, i: nat, step: PassStep)
    requires HistoryOk(s) && PassEnabled(a, s, i, step) && s.obj.Some? && PassEffect(a, s, i, step).obj.Some?
    ensures var t := PassEffect(a, s, i, step);
            t.obj == s.obj || (t.obj.value.gen == s.obj.value.gen && t.obj.value.rv == s.clock + 1)
  {
    match step
    case AddFinalizer(reply) => if !reply.Refused? { FinalizerKeepsGeneration(s, i, true); }
    case RemoveFinalizer(reply) => if !reply.Refused? { FinalizerKeepsGeneration(s, i, false); }
    case Report(reply) => StatusKeepsGeneration(s, i, reply, Reported);
    case ReportDeployed(reply) => StatusKeepsGeneration(s, i, reply, Finalizing);
    case _ =>
  }

  /** The steps that count as a generation: an edit of the specification and the first request for deletion. */
  predicate IsEdit(s: State, act: Action) {
    act.Env? && (act.env.EditSpec? || (act.env.RequestDeletion? && s.obj.Some? && !s.obj.value.deleting))
  }

  lemma ArriveKeepsObjectGeneration(a: Assumptions, s: State, w: Request)
    requires HistoryOk(s) && EnvEnabled(a, s, Arrive(w)) && s.obj.Some? && EnvEffect(a, s, Arrive(w)).obj.Some?
    ensures var t := EnvEffect(a, s, Arrive(w));
            t.obj == s.obj || (t.obj.value.gen == s.obj.value.gen && t.obj.value.rv == s.clock + 1)
  {
    assert LateOk(s, w);
    if w.FinalizerWrite? { OwnVersion(s, w.obj); }
  }

  lemma EnvCountsGeneration(a: Assumptions, s: State, e: EnvStep)
    requires HistoryOk(s) && EnvEnabled(a, s, e) && s.obj.Some? && EnvEffect(a, s, e).obj.Some?
    ensures var t := EnvEffect(a, s, e);
            || (t.obj == s.obj && !IsEdit(s, Env(e)))
            || (t.obj.value.rv == s.clock + 1 &&
                t.obj.value.gen == s.obj.value.gen + if IsEdit(s, Env(e)) then 1 else 0)
  {
    if e.Arrive? { ArriveKeepsObjectGeneration(a, s, e.request); }
  }

  /** What a step does to the object's version and generation: every write gets a version that no copy has, and exactly
      the edits of the specification and the first request for deletion count as a generation. */
  lemma GenerationCountsEdits(a: Assumptions, s: State, act: Action, t: State)
    requires Reachable(a, s) && Next(a, s, act, t) && s.obj.Some? && t.obj.Some?
    ensures t.obj != s.obj ==> forall o | o in s.seenObjs :: o.rv < t.obj.value.rv
    ensures t.obj.value.gen == s.obj.value.gen + if IsEdit(s, act) then 1 else 0
  {
    ReachableKeeps(a, s);
    match act
    case Env(e) => EnvCountsGeneration(a, s, e);
    case InPass(i, step) => PassKeepsGeneration(a, s, i, step);
    case InEngine(i, e) => EngineKeepsObject(s, i, e);
  }

  /** LoadStack's generation mismatch, even against a stale Secret, means that the local object is
      behind the server's; so a pass that read the current object is never requeued for it. */
  lemma MismatchMeansStaleObject(a: Assumptions, s: State, i: nat, view: Option<Secret>)
    requires Reachable(a, s) && i in s.workers && view in s.seenSecrets && view.Some?
    requires view.value.gen > s.workers[i].obj.gen
    ensures s.obj.None? || (s.workers[i].obj.gen < s.obj.value.gen && s.workers[i].obj.rv < s.obj.value.rv)
  {
    ReachableKeeps(a, s);
    var p := s.workers[i];
    assert PassOk(s, p);
  }

  /** Every status write that lands stamps the generation the server holds at that instant. */
  lemma StatusStampsCurrentGeneration(a: Assumptions, s: State, i: nat, reply: Reply, next: Pc)
    requires Reachable(a, s) && a.checkedStatus && i in s.workers && reply != Refused
    requires StatusOk(a, s, s.workers[i].obj, reply)
    requires WriteStatus(s, i, s.workers[i], reply, next).obj.Some?
    ensures var t := WriteStatus(s, i, s.workers[i], reply, next);
            t.obj.value.observed == s.obj.value.gen && t.obj.value.gen == s.obj.value.gen
  {
    ReachableKeeps(a, s);
    assert PassOk(s, s.workers[i]);
  }

  /** So does one that lands late. */
  lemma LateStatusStampsCurrentGeneration(a: Assumptions, s: State, obj: Object)
    requires Reachable(a, s) && a.checkedStatus && EnvEnabled(a, s, Arrive(StatusWrite(obj)))
    requires EnvEffect(a, s, Arrive(StatusWrite(obj))).obj.Some?
    ensures var t := EnvEffect(a, s, Arrive(StatusWrite(obj)));
            t.obj.value.observed == s.obj.value.gen && t.obj.value.gen == s.obj.value.gen
  {
    ReachableKeeps(a, s);
    assert LateOk(s, StatusWrite(obj));
    OwnVersion(s, obj);
  }

  lemma EngineKeepsObject(s: State, i: nat, e: EngineStep)
    requires i in s.workers
    ensures EngineEffect(s, i, e).obj == s.obj
  {
  }

  lemma StatusKeepsObserved(s: State, i: nat, reply: Reply, next: Pc)
    requires HistoryOk(s) && i in s.workers && s.obj.Some?
    requires reply.Refused? || s.obj.value.rv == s.workers[i].obj.rv
    requires WriteStatus(s, i, s.workers[i], reply, next).obj.Some?
    ensures s.obj.value.observed <= WriteStatus(s, i, s.workers[i], reply, next).obj.value.observed
  {
    assert PassOk(s, s.workers[i]);
    assert s.obj.value.observed <= s.obj.value.gen;
  }

  lemma PassKeepsObserved(a: Assumptions, s: State, i: nat, step: PassStep)
    requires HistoryOk(s) && a.checkedStatus && PassEnabled(a, s, i, step)
    requires s.obj.Some? && PassEffect(a, s, i, step).obj.Some?
    ensures s.obj.value.observed <= PassEffect(a, s, i, step).obj.value.observed
  {
    match step
    case Report(reply) => StatusKeepsObserved(s, i, reply, Reported);
    case ReportDeployed(reply) => StatusKeepsObserved(s, i, reply, Finalizing);
    case _ =>
  }

  lemma EnvKeepsObserved(a: Assumptions, s: State, e: EnvStep)
    requires HistoryOk(s) && a.checkedStatus && EnvEnabled(a, s, e) && s.obj.Some? && EnvEffect(a, s, e).obj.Some?
    ensures s.obj.value.observed <= EnvEffect(a, s, e).obj.value.observed
  {
    if e.Arrive? && !e.request.SecretWrite? {
      assert LateOk(s, e.request);
      OwnVersion(s, e.request.obj);
    }
  }

  lemma StepKeepsObserved(a: Assumptions, s: State, act: Action, t: State)
    requires HistoryOk(s) && a.checkedStatus && Next(a, s, act, t) && s.obj.Some? && t.obj.Some?
    ensures s.obj.value.observed <= t.obj.value.observed
  {
    match act
    case Env(e) => EnvKeepsObserved(a, s, e);
    case InPass(i, step) => PassKeepsObserved(a, s, i, step);
    case InEngine(i, e) => EngineKeepsObject(s, i, e);
  }

  lemma PassMakesNoObject(a: Assumptions, s: State, i: nat, step: PassStep)
    requires PassEnabled(a, s, i, step) && s.obj.None?
    ensures PassEffect(a, s, i, step).obj.None?
  {
  }

  lemma ObjectStaysGone(a: Assumptions, s: State, act: Action, t: State)
    requires Next(a, s, act, t) && s.obj.None?
    ensures t.obj.None?
  {
    match act
    case Env(e) =>
    case InPass(i, step) => PassMakesNoObject(a, s, i, step);
    case InEngine(i, e) => EngineKeepsObject(s, i, e);
  }

  lemma ObservedAlong(a: Assumptions, x: Execution, k: nat)
    requires IsExecution(a, x) && Reachable(a, x.states[0]) && a.checkedStatus && k < |x.acts|
    requires x.states[k + 1].obj.Some?
    ensures x.states[k].obj.Some?
    ensures x.states[k].obj.value.observed <= x.states[k + 1].obj.value.observed
  {
    ReachableKeeps(a, x.states[0]);
    RunKeeps(a, x, k);
    if x.states[k].obj.None? { ObjectStaysGone(a, x.states[k], x.acts[k], x.states[k + 1]); }
    StepKeepsObserved(a, x.states[k], x.acts[k], x.states[k + 1]);
  }

  /** The observed generation never passes the object's. */
  lemma ObservedWithinGeneration(a: Assumptions, s: State)
    requires Reachable(a, s) && s.obj.Some?
    ensures s.obj.value.observed <= s.obj.value.gen
  {
    ReachableKeeps(a, s);
  }

  /** The observed generation never decreases over a run. */
  lemma {:induction false} ObservedGenerationNeverFalls(a: Assumptions, x: Execution, j: nat, k: nat)
    requires IsExecution(a, x) && Reachable(a, x.states[0]) && a.checkedStatus && j <= k <= |x.acts|
    requires x.states[k].obj.Some?
    ensures x.states[j].obj.Some?
    ensures x.states[j].obj.value.observed <= x.states[k].obj.value.observed
    decreases k
  {
    if j < k {
      ObservedAlong(a, x, k - 1);
      ObservedGenerationNeverFalls(a, x, j, k - 1);
    }
  }
}
