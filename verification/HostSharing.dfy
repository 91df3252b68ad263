/** The reconciler's shared host context (reconciler.go:180-189): a pass stores its new host in a field of the
    reconciler and reads the field back for its stack, so passes that overlap there can mix up their hosts. */
module HostSharing {
  /** What passes do to the field, in the order in which it happens: the next pass makes and stores its host, or a pass
      takes the stored one for its stack, which closes it in the end. Passes, and so the hosts they make, are numbered
      in the order of making. */
  datatype ContextStep = Make | Take(pass: nat)

  function Made(steps: seq<ContextStep>): nat {
    if steps == [] then 0 else Made(steps[..|steps| - 1]) + if steps[|steps| - 1].Make? then 1 else 0
  }

  /** The host that each pass has taken. */
  function Taken(steps: seq<ContextStep>): map<nat, int> {
    if steps == [] then map[]
    else
      var init := steps[..|steps| - 1];
      match steps[|steps| - 1]
      case Make => Taken(init)
      case Take(pass) => Taken(init)[pass := Made(init) - 1]
  }

  /** Every pass takes once, after making its own host. */
  predicate Legal(steps: seq<ContextStep>) {
    if steps == [] then true
    else
      var init := steps[..|steps| - 1];
      Legal(init) && match steps[|steps| - 1]
                     case Make => true
                     case Take(pass) => pass < Made(init) && pass !in Taken(init)
  }

  /** At p the pass makes its host and at k it takes one. */
  predicate Spans(steps: seq<ContextStep>, p: nat, k: nat) {
    p < k < |steps| && steps[p].Make? && steps[k].Take? && Made(steps[..p]) == steps[k].pass
  }

  predicate NoneMakes(steps: seq<ContextStep>, p: nat, k: nat)
    requires k <= |steps|
  {
    forall m | p < m < k :: !steps[m].Make?
  }

  /** No pass makes its host while another is between making and taking. */
  ghost predicate Apart(steps: seq<ContextStep>) {
    forall p, k | Spans(steps, p, k) :: NoneMakes(steps, p, k)
  }

  // ----- the field -----

  class PulumiReconciler {
    var made: nat
    var hostContext: int
    var taken: map<nat, int>

    ghost predicate Follows(steps: seq<ContextStep>)
      reads this
    {
      made == Made(steps) && taken == Taken(steps) && hostContext == Made(steps) - 1
    }

    constructor ()
      ensures Follows([])
    {
      made := 0;
      hostContext := -1;
      taken := map[];
    }

    /** r.hostContext = *hostCtx (line 185). */
    method MakeHost(ghost steps: seq<ContextStep>)
      requires Follows(steps)
      modifies this
      ensures Follows(steps + [Make])
    {
      assert (steps + [Make])[..|steps|] == steps;
      hostContext := made;
      made := made + 1;
    }

    /** LoadStack(ctx, r.hostContext, ...) (line 187). */
    method TakeHost(pass: nat, ghost steps: seq<ContextStep>)
      requires Follows(steps)
      modifies this
      ensures Follows(steps + [Take(pass)])
    {
      assert (steps + [Take(pass)])[..|steps|] == steps;
      taken := taken[pass := hostContext];
    }

    /** Any interleaving of passes. */
    method Interleave(steps: seq<ContextStep>)
      requires Follows([])
      modifies this
      ensures Follows(steps)
    {
      for k := 0 to |steps|
        invariant Follows(steps[..k])
      {
        assert steps[..k + 1] == steps[..k] + [steps[k]];
        match steps[k]
        case Make => MakeHost(steps[..k]);
        case Take(pass) => TakeHost(pass, steps[..k]);
      }
      assert steps[..|steps|] == steps;
    }
  }

  // ----- which host a pass takes -----

  lemma {:induction false} MadeGrows(steps: seq<ContextStep>, p: nat, k: nat)
    requires p <= k <= |steps|
    ensures Made(steps[..p]) <= Made(steps[..k])
    ensures Made(steps[..p]) == Made(steps[..k]) <==> forall m | p <= m < k :: !steps[m].Make?
    decreases k
  {
    if p < k {
      MadeGrows(steps, p, k - 1);
      assert steps[..k][..k - 1] == steps[..k - 1];
    }
  }

  lemma {:induction false} LegalPrefix(steps: seq<ContextStep>, k: nat)
    requires Legal(steps) && k <= |steps|
    ensures Legal(steps[..k])
    decreases |steps|
  {
    if k < |steps| {
      LegalPrefix(steps[..|steps| - 1], k);
      assert steps[..|steps| - 1][..k] == steps[..k];
    } else {
      assert steps[..k] == steps;
    }
  }

  /** A pass takes the last host made before. */
  lemma {:induction false} TakenAt(steps: seq<ContextStep>, k: nat)
    requires Legal(steps) && k < |steps| && steps[k].Take?
    ensures steps[k].pass in Taken(steps) && Taken(steps)[steps[k].pass] == Made(steps[..k]) - 1
    decreases |steps|
  {
    var init := steps[..|steps| - 1];
    if k < |init| {
      TakenAt(init, k);
      assert init[..k] == steps[..k];
    }
  }

  lemma {:induction false} TakenHasStep(steps: seq<ContextStep>, i: nat) returns (k: nat)
    requires Legal(steps) && i in Taken(steps)
    ensures k < |steps| && steps[k] == Take(i)
  {
    var init := steps[..|steps| - 1];
    if steps[|init|] == Take(i) { k := |init|; } else { k := TakenHasStep(init, i); }
  }

  lemma {:induction false} MadeHasStep(steps: seq<ContextStep>, i: nat) returns (p: nat)
    requires i < Made(steps)
    ensures p < |steps| && steps[p].Make? && Made(steps[..p]) == i
  {
    var init := steps[..|steps| - 1];
    if i < Made(init) {
      p := MadeHasStep(init, i);
      assert steps[..p] == init[..p];
    } else {
      p := |init|;
    }
  }

  /** The pass that takes at k takes its own host exactly if no other makes one in between, and otherwise a later
      one. */
  lemma TakesOwnExactly(steps: seq<ContextStep>, p: nat, k: nat)
    requires Legal(steps) && Spans(steps, p, k)
    ensures steps[k].pass in Taken(steps) && Taken(steps)[steps[k].pass] >= steps[k].pass
    ensures Taken(steps)[steps[k].pass] == steps[k].pass <==> NoneMakes(steps, p, k)
  {
    TakenAt(steps, k);
    assert steps[..p + 1][..p] == steps[..p];
    MadeGrows(steps, p + 1, k);
  }

  /** The step at which a pass made the host it should take. */
  lemma SpanOf(steps: seq<ContextStep>, i: nat) returns (p: nat, k: nat)
    requires Legal(steps) && i in Taken(steps)
    ensures Spans(steps, p, k) && steps[k] == Take(i)
  {
    k := TakenHasStep(steps, i);
    LegalPrefix(steps, k + 1);
    assert steps[..k + 1][..k] == steps[..k];
    p := MadeHasStep(steps[..k], i);
    assert steps[..k][..p] == steps[..p];
  }

  // ----- main results -----

  /** Every pass that has taken a host has its own. */
  ghost predicate AllOwn(steps: seq<ContextStep>) {
    forall i | i in Taken(steps) :: Taken(steps)[i] == i
  }

  /** Every pass has its own host exactly if no two passes overlap between making and taking. */
  lemma OwnHostsExactly(steps: seq<ContextStep>)
    requires Legal(steps)
    ensures AllOwn(steps) <==> Apart(steps)
  {
    if AllOwn(steps) {
      forall p, k | Spans(steps, p, k) ensures NoneMakes(steps, p, k) { TakesOwnExactly(steps, p, k); }
      assert Apart(steps);
    }
    if Apart(steps) {
      forall i | i in Taken(steps) ensures Taken(steps)[i] == i {
        var p, k := SpanOf(steps, i);
        assert NoneMakes(steps, p, k);
        TakesOwnExactly(steps, p, k);
      }
      assert AllOwn(steps);
    }
  }

  /** The passes whose stacks close a host. */
  function Closers(steps: seq<ContextStep>, h: nat): set<nat> {
    set i | i in Taken(steps) && Taken(steps)[i] == h
  }

  lemma {:induction false} HostsClosedAreOwn(steps: seq<ContextStep>, h: nat)
    requires Legal(steps) && h < Made(steps)
    requires forall g: nat | g <= h :: Closers(steps, g) != {}
    ensures h in Taken(steps) && Taken(steps)[h] == h
  {
    var i :| i in Closers(steps, h);
    var p, k := SpanOf(steps, i);
    TakesOwnExactly(steps, p, k);
    if i < h { HostsClosedAreOwn(steps, i); }
  }

  /** When all passes have taken a host, every host is closed exactly once exactly if no two passes overlapped. */
  lemma HostsCloseOnceExactly(steps: seq<ContextStep>)
    requires Legal(steps) && forall i | 0 <= i < Made(steps) :: i in Taken(steps)
    ensures (forall h | 0 <= h < Made(steps) :: |Closers(steps, h)| == 1) <==> Apart(steps)
  {
    OwnHostsExactly(steps);
    if forall h | 0 <= h < Made(steps) :: |Closers(steps, h)| == 1 {
      forall i | i in Taken(steps) ensures Taken(steps)[i] == i {
        var p, k := SpanOf(steps, i);
        TakenAt(steps, k);
        MadeGrows(steps, k, |steps|);
        assert steps[..|steps|] == steps;
        TakesOwnExactly(steps, p, k);
        forall g: nat | g <= i ensures Closers(steps, g) != {} { assert |Closers(steps, g)| == 1; }
        HostsClosedAreOwn(steps, i);
      }
    }
    if Apart(steps) {
      forall h: nat | h < Made(steps) ensures |Closers(steps, h)| == 1 {
        assert Closers(steps, h) == {h};
      }
    }
  }

  /** Two overlapping passes: the second's host is closed twice and the first's never. */
  lemma OverlapLeaksAHost()
    ensures var steps := [Make, Make, Take(0), Take(1)];
            Legal(steps) && Closers(steps, 0) == {} && Closers(steps, 1) == {0, 1}
  {
    var one, two, three := [Make], [Make, Make], [Make, Make, Take(0)];
    var steps := three + [Take(1)];
    assert steps == [Make, Make, Take(0), Take(1)] && steps[..3] == three && three[..2] == two && two[..1] == one;
    assert one[..0] == [];
    assert Made(one) == 1 && Made(two) == 2 && Made(three) == 2;
    assert Legal(one) && Legal(two) && Taken(one) == map[] && Taken(two) == map[];
    assert Taken(three) == map[0 := 1] && Legal(three);
    assert Taken(steps) == map[0 := 1, 1 := 1];
  }
}
