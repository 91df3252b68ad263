/** The engine's event stream: the accumulator that folds it, and the goroutine that drains it over an
    unbuffered channel while the engine is already on its way back. */
module Events {
  import opened Options
  import opened References

  /** A stack output; unknown values during planning are not strings. */
  datatype Property = Text(text: string) | NotText

  datatype Event =
    | ResourceOutputs(kind: string, newOutputs: Option<map<string, Property>>)
    | Summary(hasChanges: bool)
    | OtherEvent

  datatype Changes = Changes(planning: bool, hasResourceChanges: bool, outputs: map<string, Property>)

  /** Events that replace the outputs: the root stack's, when they carry a new state. */
  predicate SetsOutputs(e: Event) {
    e.ResourceOutputs? && e.kind == STACK_TYPE && e.newOutputs.Some?
  }

  function Apply(c: Changes, e: Event): Changes {
    if SetsOutputs(e) then c.(outputs := e.newOutputs.value)
    else if e.Summary? then c.(hasResourceChanges := e.hasChanges)
    else c
  }

  function Fold(c: Changes, es: seq<Event>): Changes {
    if es == [] then c else Apply(Fold(c, es[..|es| - 1]), es[|es| - 1])
  }

  /** StackChanges (status.go:37-71). */
  class StackChanges {
    const planning: bool
    var hasResourceChanges: bool
    var outputs: map<string, Property>

    constructor (dryRun: bool)
      ensures View() == Changes(dryRun, false, map[])
    {
      planning := dryRun;
      hasResourceChanges := false;
      outputs := map[];
    }

    function View(): Changes
      reads this
    {
      Changes(planning, hasResourceChanges, outputs)
    }

    method EngineEvent(event: Event)
      modifies this
      ensures View() == Apply(old(View()), event)
      ensures outputs == if event.ResourceOutputs? && event.kind == "pulumi:pulumi:Stack" && event.newOutputs.Some?
                         then event.newOutputs.value else old(outputs)
      ensures hasResourceChanges == if event.Summary? then event.hasChanges else old(hasResourceChanges)
    {
      match event
      case ResourceOutputs(kind, newOutputs) =>
        if kind == STACK_TYPE {
          if newOutputs.Some? { outputs := newOutputs.value; }
        }
      case Summary(hasChanges) => hasResourceChanges := hasChanges;
      case OtherEvent =>
    }
  }

  /** The drain loop (stack.go:168-176) over the events it received so far; a missing handler drops them. */
  method Drain(h: StackChanges?, received: seq<Event>)
    modifies h
    ensures h != null ==> h.View() == Fold(old(h.View()), received)
  {
    for k := 0 to |received|
      invariant h != null ==> h.View() == Fold(old(h.View()), received[..k])
    {
      assert received[..k + 1][..k] == received[..k];
      if h != null { h.EngineEvent(received[k]); }
    }
    assert received[..|received|] == received;
  }

  // ----- what the fold means -----

  /** The position of the last event that sets the outputs, or -1. */
  function LastOutputs(es: seq<Event>): (k: int)
    ensures -1 <= k < |es|
    ensures k >= 0 ==> SetsOutputs(es[k])
    ensures forall i | k < i < |es| :: !SetsOutputs(es[i])
  {
    if es == [] then -1 else if SetsOutputs(es[|es| - 1]) then |es| - 1 else LastOutputs(es[..|es| - 1])
  }

  function LastSummary(es: seq<Event>): (k: int)
    ensures -1 <= k < |es|
    ensures k >= 0 ==> es[k].Summary?
    ensures forall i | k < i < |es| :: !es[i].Summary?
  {
    if es == [] then -1 else if es[|es| - 1].Summary? then |es| - 1 else LastSummary(es[..|es| - 1])
  }

  /** The accumulator holds the last root-stack outputs with a new state and the last summary, of any event
      sequence. */
  lemma {:induction false} FoldKeepsTheLast(c: Changes, es: seq<Event>)
    ensures Fold(c, es).planning == c.planning
    ensures Fold(c, es).outputs ==
            if LastOutputs(es) < 0 then c.outputs else es[LastOutputs(es)].newOutputs.value
    ensures Fold(c, es).hasResourceChanges ==
            if LastSummary(es) < 0 then c.hasResourceChanges else es[LastSummary(es)].hasChanges
  {
    if es != [] { FoldKeepsTheLast(c, es[..|es| - 1]); }
  }

  /** A new state of the root stack. */
  predicate IsRootState(e: Event, outputs: map<string, Property>) {
    e == ResourceOutputs("pulumi:pulumi:Stack", Some(outputs))
  }

  /** The outputs in the accumulator are those of the last new state of the root stack, and unchanged without one. */
  lemma FoldKeepsRootOutputs(c: Changes, es: seq<Event>, k: nat, outputs: map<string, Property>)
    requires k <= |es| && forall j | k <= j < |es| :: forall m :: !IsRootState(es[j], m)
    ensures k > 0 && IsRootState(es[k - 1], outputs) ==> Fold(c, es).outputs == outputs
    ensures k == 0 ==> Fold(c, es).outputs == c.outputs
  {
    FoldKeepsTheLast(c, es);
    forall j | k <= j < |es| ensures !SetsOutputs(es[j]) {
      if SetsOutputs(es[j]) { assert IsRootState(es[j], es[j].newOutputs.value); }
    }
  }

  // ----- the unbuffered channel -----

  /** The engine has completed `sent` sends, the drain has handled `handled` events, and the engine may have
      returned. On an unbuffered channel a send completes when the drain receives it, and the drain receives
      only between two handled events. */
  datatype Channel = Channel(sent: nat, handled: nat, returned: bool)

  datatype Move = Pass | Handle | Return

  predicate Enabled(n: nat, c: Channel, m: Move) {
    match m
    case Pass => c.sent < n && c.handled == c.sent && !c.returned
    case Handle => c.handled < c.sent
    case Return => c.sent == n && !c.returned
  }

  function Step(c: Channel, m: Move): Channel {
    match m
    case Pass => c.(sent := c.sent + 1)
    case Handle => c.(handled := c.handled + 1)
    case Return => c.(returned := true)
  }

  /** A run of the channel: its states and the move between each two. */
  datatype Trace = Trace(states: seq<Channel>, moves: seq<Move>)

  ghost predicate IsTrace(n: nat, x: Trace) {
    && |x.states| == |x.moves| + 1 && x.states[0] == Channel(0, 0, false)
    && forall k {:trigger x.moves[k]} | 0 <= k < |x.moves| ::
         Enabled(n, x.states[k], x.moves[k]) && x.states[k + 1] == Step(x.states[k], x.moves[k])
  }

  lemma {:induction false} DrainLagsByOne(n: nat, x: Trace, k: nat)
    requires IsTrace(n, x) && k <= |x.moves|
    ensures var c := x.states[k]; c.handled <= c.sent <= c.handled + 1 && c.sent <= n
    ensures x.states[k].returned ==> x.states[k].sent == n
  {
    if k > 0 {
      DrainLagsByOne(n, x, k - 1);
      assert Enabled(n, x.states[k - 1], x.moves[k - 1]);
    }
  }

  /** When the engine has returned, the accumulator holds the fold of all events or of all but the last. */
  lemma ReturnedMissesAtMostTheLast(events: seq<Event>, c: Changes, x: Trace, k: nat)
    requires IsTrace(|events|, x) && k <= |x.moves| && x.states[k].returned
    ensures var handled := x.states[k].handled;
            && handled <= |events| <= handled + 1
            && (handled == |events| ==> Fold(c, events[..handled]) == Fold(c, events))
            && (handled < |events| ==> Fold(c, events) == Apply(Fold(c, events[..handled]), events[handled]))
  {
    DrainLagsByOne(|events|, x, k);
    if x.states[k].handled == |events| { assert events[..|events|] == events; }
  }

  lemma Push(n: nat, x: Trace, m: Move) returns (y: Trace)
    requires IsTrace(n, x) && Enabled(n, x.states[|x.moves|], m)
    ensures IsTrace(n, y) && y.states[|y.moves|] == Step(x.states[|x.moves|], m)
  {
    y := Trace(x.states + [Step(x.states[|x.moves|], m)], x.moves + [m]);
    forall k | 0 <= k < |y.moves|
      ensures Enabled(n, y.states[k], y.moves[k]) && y.states[k + 1] == Step(y.states[k], y.moves[k])
    {
      if k < |x.moves| { assert Enabled(n, x.states[k], x.moves[k]); }
    }
  }

  lemma {:induction false} Sends(n: nat, m: nat) returns (x: Trace)
    requires m <= n
    ensures IsTrace(n, x) && x.states[|x.moves|] == Channel(m, m, false)
  {
    if m == 0 {
      x := Trace([Channel(0, 0, false)], []);
    } else {
      x := Sends(n, m - 1);
      x := Push(n, x, Pass);
      x := Push(n, x, Handle);
    }
  }

  /** Missing the last event is possible for every nonempty stream: the engine can return between the last
      send and its handling. */
  lemma LastEventCanBeMissed(n: nat) returns (x: Trace)
    requires n > 0
    ensures IsTrace(n, x) && x.states[|x.moves|] == Channel(n, n - 1, true)
  {
    x := Sends(n, n - 1);
    x := Push(n, x, Pass);
    x := Push(n, x, Return);
  }

  /** A late accumulator misreports whether there are changes exactly when the last event is a summary that
      contradicts everything before it. */
  lemma LateSummaryMatters(c: Changes, events: seq<Event>)
    requires events != []
    ensures var early, last := events[..|events| - 1], events[|events| - 1];
            Fold(c, early).hasResourceChanges != Fold(c, events).hasResourceChanges <==>
            last.Summary? && last.hasChanges !=
              if LastSummary(early) < 0 then c.hasResourceChanges else early[LastSummary(early)].hasChanges
  {
    FoldKeepsTheLast(c, events[..|events| - 1]);
  }
}
