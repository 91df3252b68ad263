/** One kubeStack over any sequence of operations and saves, with other clients writing in between: what each
    operation starts from, and which saves succeed. */
module StackRuns {
  import opened Options
  import opened Store
  import opened References
  import opened Snapshotter

  /** What happens to a stack and its Secret: an operation, dry or not, takes its base; an operation saves; another
      client writes a Secret; some other record is written. */
  datatype StackEvent =
    | Operate
    | Persist(next: Snapshot, fate: Reply)
    | Foreign(o: SecretObject)
    | Elsewhere

  /** A write of the stack's Secret that the stack does not learn of. */
  predicate Disturbs(e: StackEvent, name: SecretName) {
    (e.Persist? && e.fate.Lost?) || (e.Foreign? && e.o.name == name)
  }

  /** How a run begins: the Secret's name and data, the object's generation, the cached snapshot, and whether the cache
      is in sync with the Secret. */
  datatype Start = Start(name: SecretName, generation: int64, data: Option<map<string, Blob>>, snap: Option<Snapshot>,
                         synced: bool)

  // ----- the run, without the stack -----

  /** The cache was in sync at first and nothing has disturbed it. */
  predicate Undisturbed(st: Start, events: seq<StackEvent>) {
    st.synced && forall k | 0 <= k < |events| :: !Disturbs(events[k], st.name)
  }

  /** The last snapshot whose save was answered before the first disturbance, or the one at first. */
  function Cached(st: Start, events: seq<StackEvent>): Option<Snapshot> {
    if events == [] then st.snap
    else
      var init, last := events[..|events| - 1], events[|events| - 1];
      if last.Persist? && last.fate.Acked? && Undisturbed(st, init) then Some(last.next) else Cached(st, init)
  }

  /** What the Secret holds: the last write that landed. A save lands before the first disturbance only. */
  function Stored(st: Start, events: seq<StackEvent>): Option<map<string, Blob>> {
    if events == [] then st.data
    else
      var init, last := events[..|events| - 1], events[|events| - 1];
      if last.Persist? && !last.fate.Refused? && Undisturbed(st, init) then
        Some(EncodeData(Some(last.next), st.generation))
      else if last.Foreign? && last.o.name == st.name then Some(last.o.data)
      else Stored(st, init)
  }

  /** The cached snapshot is what a load answers. */
  predicate Agrees(cached: Option<Snapshot>, loaded: Loaded) {
    match loaded
    case Failed(_) => false
    case Absent => cached == None
    case Found(x, _) => cached == Some(x)
  }

  predicate StartsAgreed(st: Start) { st.synced ==> Agrees(st.snap, LoadData(st.data, st.generation)) }

  /** Over any events without a disturbance the cached snapshot stays what a fresh load would answer. */
  lemma {:induction false} CacheIsFreshLoad(st: Start, events: seq<StackEvent>)
    requires StartsAgreed(st) && Undisturbed(st, events)
    ensures Agrees(Cached(st, events), LoadData(Stored(st, events), st.generation))
  {
    if events != [] {
      var init, last := events[..|events| - 1], events[|events| - 1];
      assert forall k | 0 <= k < |init| :: init[k] == events[k];
      CacheIsFreshLoad(st, init);
      assert !Disturbs(last, st.name);
      if last.Persist? { EncodeDecode(Some(last.next), st.generation); }
    }
  }

  lemma RunGrows(st: Start, events: seq<StackEvent>, k: nat)
    requires k < |events|
    ensures var init, e := events[..k], events[k];
            var more, undisturbed := events[..k + 1], Undisturbed(st, init);
            && (Undisturbed(st, more) <==> undisturbed && !Disturbs(e, st.name))
            && Cached(st, more) == (if e.Persist? && undisturbed && e.fate.Acked? then Some(e.next)
                                    else Cached(st, init))
            && Stored(st, more) ==
               (if e.Persist? && undisturbed && !e.fate.Refused? then Some(EncodeData(Some(e.next), st.generation))
                else if e.Foreign? && e.o.name == st.name then Some(e.o.data)
                else Stored(st, init))
  {
    var init, more := events[..k], events[..k + 1];
    assert more[..k] == init && more[k] == events[k];
    assert forall j | 0 <= j < k :: more[j] == init[j];
  }

  // ----- the run, with the stack -----

  /** The server does not accept the handle's version. */
  predicate Outdated(stack: KubeStack)
    reads stack, stack.snapHandle, stack.snapshotter.api, stack.obj
  {
    && stack.Name() in stack.snapshotter.api.secrets
    && !MayLand(Versions(Some(stack.snapshotter.api.secrets[stack.Name()])), Versions(Carried(stack.snapHandle)))
  }

  ghost predicate Tracks(stack: KubeStack, undisturbed: bool)
    reads stack, stack.snapHandle, stack.snapshotter.api, stack.obj
  {
    && stack.OwnHandle() && stack.snapshotter.api.Valid()
    && (Carried(stack.snapHandle).Some? ==> Carried(stack.snapHandle).value.rv <= stack.snapshotter.api.clock)
    && if undisturbed then stack.InSync() else Outdated(stack)
  }

  /** What the stack's Secret holds. */
  function DataIn(stack: KubeStack): Option<map<string, Blob>>
    reads stack.snapshotter.api
  {
    DataOf(Lookup(stack.snapshotter.api.secrets, stack.Name()))
  }

  /** The stack as the start of a run. */
  function StartOf(stack: KubeStack, synced: bool): Start
    reads stack, stack.snapshotter.api, stack.obj
  {
    Start(stack.Name(), stack.obj.generation, DataIn(stack), stack.snap, synced)
  }

  /** One event. While undisturbed a save succeeds exactly if it is answered; afterwards every save fails and
      changes neither the cached snapshot, nor the handle's Secret, nor the store. */
  method Handle(stack: KubeStack, e: StackEvent, ghost undisturbed: bool) returns (base: Option<Snapshot>, saved: bool)
    requires Tracks(stack, undisturbed)
    modifies stack, stack.snapHandle, stack.snapshotter.api
    ensures Tracks(stack, undisturbed && !Disturbs(e, stack.Name()))
    ensures stack.snapHandle == old(stack.snapHandle) || fresh(stack.snapHandle)
    ensures base == old(stack.snap)
    ensures saved <==> e.Persist? && undisturbed && e.fate.Acked?
    ensures stack.snap == if saved then Some(e.next) else old(stack.snap)
    ensures !saved ==> Carried(stack.snapHandle) == old(Carried(stack.snapHandle))
    ensures DataIn(stack) ==
            if e.Persist? && undisturbed && !e.fate.Refused? then Some(EncodeData(Some(e.next), stack.obj.generation))
            else if e.Foreign? && e.o.name == stack.Name() then Some(e.o.data)
            else old(DataIn(stack))
  {
    base := stack.GetTarget();
    saved := false;
    match e
    case Operate =>
    case Persist(next, fate) => saved := stack.Save(next, fate);
    case Foreign(o) => stack.snapshotter.api.Overwrite(o);
    case Elsewhere => stack.snapshotter.api.Tick();
  }

  /** The trace of a run: each base is what was cached, each save succeeds exactly if it is answered and comes before
      every disturbance. */
  ghost predicate Traces(st: Start, events: seq<StackEvent>, bases: seq<Option<Snapshot>>, saved: seq<bool>) {
    && |bases| == |saved| <= |events|
    && (forall k | 0 <= k < |bases| :: bases[k] == Cached(st, events[..k]))
    && (forall k | 0 <= k < |saved| ::
          saved[k] <==> events[k].Persist? && events[k].fate.Acked? && Undisturbed(st, events[..k]))
  }

  lemma TraceGrows(st: Start, events: seq<StackEvent>, bases: seq<Option<Snapshot>>, saved: seq<bool>, ok: bool)
    requires Traces(st, events, bases, saved) && |bases| < |events|
    requires var k := |bases|;
             ok <==> events[k].Persist? && events[k].fate.Acked? && Undisturbed(st, events[..k])
    ensures Traces(st, events, bases + [Cached(st, events[..|bases|])], saved + [ok])
  {
    var more, yes := bases + [Cached(st, events[..|bases|])], saved + [ok];
    forall k | 0 <= k < |more|
      ensures more[k] == Cached(st, events[..k])
      ensures yes[k] <==> events[k].Persist? && events[k].fate.Acked? && Undisturbed(st, events[..k])
    {
      if k < |bases| { assert more[k] == bases[k] && yes[k] == saved[k]; }
    }
  }

  /** Until the first disturbance each base is what a fresh load would answer at that point. */
  ghost predicate BasesAreFresh(st: Start, events: seq<StackEvent>, bases: seq<Option<Snapshot>>) {
    forall k | 0 <= k < |bases| && k <= |events| && Undisturbed(st, events[..k]) ::
      Agrees(bases[k], LoadData(Stored(st, events[..k]), st.generation))
  }

  lemma TracedBasesAreFresh(st: Start, events: seq<StackEvent>, bases: seq<Option<Snapshot>>, saved: seq<bool>)
    requires StartsAgreed(st) && Traces(st, events, bases, saved)
    ensures BasesAreFresh(st, events, bases)
  {
    forall k | 0 <= k < |bases| && Undisturbed(st, events[..k])
      ensures Agrees(bases[k], LoadData(Stored(st, events[..k]), st.generation))
    {
      CacheIsFreshLoad(st, events[..k]);
    }
  }

  /** A stack over any events: every operation starts from the last snapshot saved before the first disturbance,
      which until then is what a fresh load would answer; a save succeeds exactly if it is answered and comes before
      every disturbance; the Secret holds what landed. Over a stack that is not in sync at first no save succeeds. */
  method Run(stack: KubeStack, events: seq<StackEvent>, ghost synced: bool)
    returns (bases: seq<Option<Snapshot>>, saved: seq<bool>)
    requires Tracks(stack, synced)
    modifies stack, stack.snapHandle, stack.snapshotter.api
    ensures |bases| == |events| && Traces(old(StartOf(stack, synced)), events, bases, saved)
    ensures BasesAreFresh(old(StartOf(stack, synced)), events, bases)
    ensures stack.snap == Cached(old(StartOf(stack, synced)), events)
    ensures DataIn(stack) == Stored(old(StartOf(stack, synced)), events)
    ensures Tracks(stack, Undisturbed(old(StartOf(stack, synced)), events))
  {
    bases, saved := [], [];
    ghost var st := StartOf(stack, synced);
    for k := 0 to |events|
      invariant |bases| == k && Traces(st, events, bases, saved)
      invariant stack.snapHandle == old(stack.snapHandle) || fresh(stack.snapHandle)
      invariant Tracks(stack, Undisturbed(st, events[..k]))
      invariant stack.snap == Cached(st, events[..k])
      invariant DataIn(stack) == Stored(st, events[..k])
    {
      RunGrows(st, events, k);
      var base, ok := Handle(stack, events[k], Undisturbed(st, events[..k]));
      TraceGrows(st, events, bases, saved, ok);
      bases, saved := bases + [base], saved + [ok];
    }
    assert events[..|events|] == events;
    TracedBasesAreFresh(st, events, bases, saved);
  }

  /** LoadStack and then any events: the stack that a load yields is one that Run takes. It starts in sync unless the
      Secret stores no snapshot, and in that case not one of its saves succeeds. */
  method LoadAndRun(snapshotter: SecretSnapshotter, obj: ApiObject, readable: bool, events: seq<StackEvent>)
    returns (stack: KubeStack?, ghost st: Start, bases: seq<Option<Snapshot>>, saved: seq<bool>)
    requires snapshotter.api.Valid()
    modifies snapshotter.api
    ensures var data := old(DataOf(Lookup(snapshotter.api.secrets, SecretNameOf(obj.Ref()))));
            var loaded := LoadData(data, obj.generation);
            && (stack == null <==> !readable || loaded.Failed?)
            && (stack != null ==>
                  && st.name == SecretNameOf(obj.Ref()) && st.generation == obj.generation && st.data == data
                  && Agrees(st.snap, loaded) && (st.synced <==> loaded.Found? || data == None)
                  && |bases| == |events| && Traces(st, events, bases, saved) && BasesAreFresh(st, events, bases)
                  && DataOf(Lookup(snapshotter.api.secrets, st.name)) == Stored(st, events))
    ensures stack != null && !st.synced ==> forall k | 0 <= k < |saved| :: !saved[k]
  {
    var error;
    stack, error := LoadStack(snapshotter, obj, readable);
    bases, saved := [], [];
    st := Start(SecretNameOf(obj.Ref()), obj.generation, None, None, false);
    if stack != null {
      st := StartOf(stack, stack.InSync());
      bases, saved := Run(stack, events, stack.InSync());
    }
  }
}
