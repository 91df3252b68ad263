/** The plugin host with its maps, its list and its one-shot server, and its lifetime over a pass. */
module PluginHost {
  import opened Options
  import opened Registry

  datatype Kind = AnalyzerPlugin | LanguagePlugin | ResourcePlugin

  /** A plugin process. Its kind, its information and whether its Close reports an error never change. */
  class Plugin {
    const kind: Kind
    const info: Option<PluginInfo>
    const closeErrs: bool
    var closes: nat

    constructor (kind: Kind, info: Option<PluginInfo>, closeErrs: bool)
      ensures this.kind == kind && this.info == info && this.closeErrs == closeErrs && closes == 0
    {
      this.kind := kind;
      this.info := info;
      this.closeErrs := closeErrs;
      closes := 0;
    }

    method Close() returns (err: bool)
      modifies this
      ensures err == closeErrs && closes == old(closes) + 1
    {
      closes := closes + 1;
      err := closeErrs;
    }
  }

  datatype Wanted = Wanted(kind: Kind, name: string)

  datatype Flags = Flags(analyzers: bool, languages: bool, resources: bool)

  predicate KindEnabled(flags: Flags, kind: Kind) {
    match kind
    case AnalyzerPlugin => flags.analyzers
    case LanguagePlugin => flags.languages
    case ResourcePlugin => flags.resources
  }

  /** What the loader answers for an entry; nil means no plugin. */
  datatype Answer = Answer(plug: Plugin?, err: bool)

  function LoadOf(answer: Answer): Load<Plugin> {
    Load(if answer.plug == null then None else Some(answer.plug),
         if answer.plug == null then None else answer.plug.info, answer.err)
  }

  /** EnsurePlugins as the fold of individual loads: the registry afterwards and the number of failures. */
  function EnsureAll(s: Registry.State<Plugin>, wanted: seq<Wanted>, flags: Flags, answers: seq<Answer>):
    (Registry.State<Plugin>, nat)
    requires |answers| == |wanted|
  {
    if wanted == [] then (s, 0)
    else
      var n := |wanted| - 1;
      var (t, failures) := EnsureAll(s, wanted[..n], flags, answers[..n]);
      if !KindEnabled(flags, wanted[n].kind) then (t, failures)
      else
        match wanted[n].kind
        case AnalyzerPlugin => (t, failures + 1)
        case LanguagePlugin =>
          var call := LanguageRuntime(wanted[n].name, LoadOf(answers[n]));
          (Apply(t, call), if Fails(t, call) then failures + 1 else failures)
        case ResourcePlugin =>
          var call := Provider(LoadOf(answers[n]));
          (Apply(t, call), if Fails(t, call) then failures + 1 else failures)
  }

  /** The loads of the enabled entries, in order. */
  function CallsOf(wanted: seq<Wanted>, flags: Flags, answers: seq<Answer>): seq<Call<Plugin>>
    requires |answers| == |wanted|
  {
    if wanted == [] then []
    else
      var n := |wanted| - 1;
      var calls := CallsOf(wanted[..n], flags, answers[..n]);
      if !KindEnabled(flags, wanted[n].kind) || wanted[n].kind.AnalyzerPlugin? then calls
      else if wanted[n].kind.LanguagePlugin? then calls + [LanguageRuntime(wanted[n].name, LoadOf(answers[n]))]
      else calls + [Provider(LoadOf(answers[n]))]
  }

  /** Which loads happen: an entry is loaded exactly if the flag of its kind is set, and an analyzer never. */
  lemma LoadsFollowFlags(wanted: seq<Wanted>, flags: Flags, answers: seq<Answer>, w: Wanted, answer: Answer)
    requires |answers| == |wanted|
    ensures CallsOf(wanted + [w], flags, answers + [answer]) == CallsOf(wanted, flags, answers) +
            match w.kind
            case AnalyzerPlugin => []
            case LanguagePlugin => if flags.languages then [LanguageRuntime(w.name, LoadOf(answer))] else []
            case ResourcePlugin => if flags.resources then [Provider(LoadOf(answer))] else []
  {
    assert (wanted + [w])[..|wanted|] == wanted && (answers + [answer])[..|answers|] == answers;
  }

  /** EnsurePlugins leaves the registry as if the enabled entries had been loaded one by one, none skipped for
      an earlier failure, after whatever calls came before. */
  lemma {:induction false} EnsureContinuesHistory(before: seq<Call<Plugin>>, wanted: seq<Wanted>, flags: Flags,
                                                  answers: seq<Answer>)
    requires |answers| == |wanted|
    ensures EnsureAll(After(before), wanted, flags, answers).0 == After(before + CallsOf(wanted, flags, answers))
  {
    if wanted == [] {
      assert before + [] == before;
    } else {
      var n := |wanted| - 1;
      EnsureContinuesHistory(before, wanted[..n], flags, answers[..n]);
      var shorter, all := before + CallsOf(wanted[..n], flags, answers[..n]), before + CallsOf(wanted, flags, answers);
      if |all| > |shorter| { assert all[..|all| - 1] == shorter; } else { assert all == shorter; }
    }
  }

  /** The entry n is enabled and its attempt fails; analyzers always do. */
  predicate EntryFails(s: Registry.State<Plugin>, wanted: seq<Wanted>, flags: Flags, answers: seq<Answer>, n: nat)
    requires |answers| == |wanted| && n < |wanted|
  {
    KindEnabled(flags, wanted[n].kind) &&
    var t := EnsureAll(s, wanted[..n], flags, answers[..n]).0;
    match wanted[n].kind
    case AnalyzerPlugin => true
    case LanguagePlugin => wanted[n].name !in t.languages && LoadErrs(LoadOf(answers[n]))
    case ResourcePlugin => LoadErrs(LoadOf(answers[n]))
  }

  /** When an entry fails, in terms of the flags and the loader's answer. */
  lemma EntryFailsExactly(s: Registry.State<Plugin>, wanted: seq<Wanted>, flags: Flags, answers: seq<Answer>, n: nat)
    requires |answers| == |wanted| && n < |wanted|
    ensures EntryFails(s, wanted, flags, answers, n) <==>
            var load := answers[n];
            var bad := load.err || (load.plug != null && load.plug.info.None?);
            match wanted[n].kind
            case AnalyzerPlugin => flags.analyzers
            case LanguagePlugin =>
              flags.languages && bad && wanted[n].name !in EnsureAll(s, wanted[..n], flags, answers[..n]).0.languages
            case ResourcePlugin => flags.resources && bad
  {
  }

  /** EnsurePlugins reports an error exactly when some enabled entry failed. */
  lemma {:induction false} EnsureErrsExactly(s: Registry.State<Plugin>, wanted: seq<Wanted>, flags: Flags,
                                             answers: seq<Answer>)
    requires |answers| == |wanted|
    ensures EnsureAll(s, wanted, flags, answers).1 > 0 <==>
            exists n :: 0 <= n < |wanted| && EntryFails(s, wanted, flags, answers, n)
  {
    if wanted != [] {
      var n := |wanted| - 1;
      var init, rest := wanted[..n], answers[..n];
      EnsureErrsExactly(s, init, flags, rest);
      forall m | 0 <= m < n
        ensures EntryFails(s, init, flags, rest, m) <==> EntryFails(s, wanted, flags, answers, m)
      {
        assert init[..m] == wanted[..m] && rest[..m] == answers[..m];
      }
      if EntryFails(s, wanted, flags, answers, n) { }
    }
  }

  class Host {
    var languagePlugins: map<string, Plugin>
    var resourcePlugins: map<Plugin, PluginInfo>
    var reportedResourcePlugins: set<string>
    var plugins: seq<PluginInfo>
    var serving: bool

    constructor ()
      ensures View() == Empty<Plugin>() && serving
    {
      languagePlugins := map[];
      resourcePlugins := map[];
      reportedResourcePlugins := {};
      plugins := [];
      serving := true;
    }

    function View(): Registry.State<Plugin>
      reads this
    {
      State(languagePlugins, resourcePlugins, reportedResourcePlugins, plugins)
    }

    /** Provider (host.go:159-186) with the loader's answer. */
    method Provider(answer: Answer) returns (plug: Plugin?, err: bool)
      modifies this
      ensures View() == Apply(old(View()), Registry.Provider(LoadOf(answer)))
      ensures err <==> answer.err || (answer.plug != null && answer.plug.info.None?)
      ensures plug == if answer.err || (answer.plug != null && answer.plug.info.Some?) then answer.plug else null
      ensures !answer.err && answer.plug != null && answer.plug.info.Some? ==>
                resourcePlugins == old(resourcePlugins)[answer.plug := answer.plug.info.value]
      ensures answer.err || answer.plug == null || answer.plug.info.None? ==> View() == old(View())
      ensures serving == old(serving)
    {
      if !answer.err && answer.plug != null {
        if answer.plug.info.None? { return null, true; }
        var info := answer.plug.info.value;
        var key := info.name;
        if info.version.Some? { key := key + info.version.value; }
        assert key == Key(info);
        if key !in reportedResourcePlugins {
          reportedResourcePlugins := reportedResourcePlugins + {key};
          plugins := plugins + [info];
        }
        resourcePlugins := resourcePlugins[answer.plug := info];
      }
      return answer.plug, answer.err;
    }

    /** CloseProvider (host.go:188-196): a provider whose Close fails stays registered. */
    method CloseProvider(provider: Plugin) returns (err: bool)
      modifies this, provider
      ensures View() == Apply(old(View()), Registry.CloseProvider(provider, err))
      ensures err == provider.closeErrs && provider.closes == old(provider.closes) + 1 && serving == old(serving)
    {
      err := provider.Close();
      if err { return; }
      resourcePlugins := resourcePlugins - {provider};
    }

    /** LanguageRuntime (host.go:202-226). Without an error a nil answer is passed on as it is. */
    method LanguageRuntime(runtime: string, answer: Answer) returns (plug: Plugin?, err: bool)
      modifies this
      ensures View() == Apply(old(View()), Registry.LanguageRuntime(runtime, LoadOf(answer)))
      ensures err == Fails(old(View()), Registry.LanguageRuntime(runtime, LoadOf(answer)))
      ensures runtime in old(languagePlugins) ==>
                plug == old(languagePlugins)[runtime] && !err && View() == old(View())
      ensures runtime !in old(languagePlugins) ==>
                && (err <==> answer.err || (answer.plug != null && answer.plug.info.None?))
                && plug == (if answer.err || (answer.plug != null && answer.plug.info.Some?) then answer.plug else null)
                && languagePlugins == (if !answer.err && answer.plug != null && answer.plug.info.Some?
                                       then old(languagePlugins)[runtime := answer.plug] else old(languagePlugins))
      ensures serving == old(serving)
    {
      if runtime in languagePlugins { return languagePlugins[runtime], false; }
      if !answer.err && answer.plug != null {
        if answer.plug.info.None? { return null, true; }
        plugins := plugins + [answer.plug.info.value];
        languagePlugins := languagePlugins[runtime := answer.plug];
      }
      return answer.plug, answer.err;
    }

    /** EnsurePlugins (host.go:253-284): every enabled entry is attempted, whatever failed before, and the
        result is an error exactly when some attempt failed. */
    method EnsurePlugins(wanted: seq<Wanted>, flags: Flags, answers: seq<Answer>) returns (failures: nat)
      requires |answers| == |wanted|
      modifies this
      ensures (View(), failures) == EnsureAll(old(View()), wanted, flags, answers)
      ensures serving == old(serving)
    {
      failures := 0;
      for n := 0 to |wanted|
        invariant (View(), failures) == EnsureAll(old(View()), wanted[..n], flags, answers[..n])
        invariant serving == old(serving)
      {
        assert wanted[..n + 1][..n] == wanted[..n] && answers[..n + 1][..n] == answers[..n];
        if KindEnabled(flags, wanted[n].kind) {
          match wanted[n].kind
          case AnalyzerPlugin => failures := failures + 1;
          case LanguagePlugin =>
            var _, err := LanguageRuntime(wanted[n].name, answers[n]);
            if err { failures := failures + 1; }
          case ResourcePlugin =>
            var _, err := Provider(answers[n]);
            if err { failures := failures + 1; }
        }
      }
      assert wanted[..|wanted|] == wanted && answers[..|answers|] == answers;
    }

    /** Close (host.go:117-139). The server takes one cancellation and no second, so a closed host must not be
        closed again. Every registered plugin is closed, the others are not touched; the reported keys and the
        list survive. Providers and runtimes are of different types, hence disjoint. */
    method Close()
      requires serving
      requires resourcePlugins.Keys !! languagePlugins.Values
      modifies this, resourcePlugins.Keys, languagePlugins.Values
      ensures View() == Apply(old(View()), Registry.Close) && !serving
      ensures forall p | p in old(resourcePlugins.Keys) :: p.closes == old(p.closes) + 1
      ensures forall p | p in old(languagePlugins.Values) :: p.closes > old(p.closes)
    {
      CloseProviders(resourcePlugins.Keys);
      CloseRuntimes(languagePlugins);
      languagePlugins := map[];
      resourcePlugins := map[];
      serving := false;
    }
  }

  /** The first loop of Close, in any order; errors are ignored. */
  method CloseProviders(providers: set<Plugin>)
    modifies providers
    ensures forall p | p in providers :: p.closes == old(p.closes) + 1
  {
    var open := providers;
    while open != {}
      invariant open <= providers
      invariant forall p | p in providers :: p.closes == old(p.closes) + if p in open then 0 else 1
      decreases |open|
    {
      var p :| p in open;
      var _ := p.Close();
      open := open - {p};
    }
  }

  /** The second loop of Close: one Close for each runtime name. */
  method CloseRuntimes(languages: map<string, Plugin>)
    modifies languages.Values
    ensures forall p | p in languages.Values :: p.closes > old(p.closes)
  {
    var open := languages.Keys;
    while open != {}
      invariant open <= languages.Keys
      invariant forall p | p in languages.Values :: p.closes >= old(p.closes)
      invariant forall r | r in languages.Keys - open :: languages[r].closes > old(languages[r].closes)
      decreases |open|
    {
      var r :| r in open;
      var _ := languages[r].Close();
      open := open - {r};
    }
  }

  // ----- an engine operation's calls -----

  /** What an engine operation asks of its host, the loader's answers included. EnsurePlugins is a series of
      loads. */
  datatype HostCall =
    | LoadProvider(answer: Answer)
    | DropProvider(provider: Plugin)
    | LoadRuntime(runtime: string, answer: Answer)
    | CloseHost

  /** Providers and language runtimes are of different types. */
  predicate Typed(c: HostCall) {
    match c
    case LoadProvider(answer) => answer.plug != null ==> answer.plug.kind == ResourcePlugin
    case DropProvider(p) => p.kind == ResourcePlugin
    case LoadRuntime(_, answer) => answer.plug != null ==> answer.plug.kind == LanguagePlugin
    case CloseHost => true
  }

  /** The calls that reach the real host: a wrapped host's Close does not. */
  function History(calls: seq<HostCall>): seq<Call<Plugin>> {
    if calls == [] then []
    else
      var before := History(calls[..|calls| - 1]);
      match calls[|calls| - 1]
      case LoadProvider(answer) => before + [Registry.Provider(LoadOf(answer))]
      case DropProvider(p) => before + [Registry.CloseProvider(p, p.closeErrs)]
      case LoadRuntime(runtime, answer) => before + [Registry.LanguageRuntime(runtime, LoadOf(answer))]
      case CloseHost => before
  }

  /** How often the operation itself closes a provider, successfully or not. */
  function Drops(calls: seq<HostCall>, p: Plugin): nat {
    if calls == [] then 0
    else Drops(calls[..|calls| - 1], p) + if calls[|calls| - 1] == DropProvider(p) then 1 else 0
  }

  function PluginsOf(c: HostCall): set<Plugin> {
    match c
    case LoadProvider(answer) => if answer.plug == null then {} else {answer.plug}
    case DropProvider(p) => {p}
    case LoadRuntime(_, answer) => if answer.plug == null then {} else {answer.plug}
    case CloseHost => {}
  }

  /** The plugins that calls are about. */
  function Plugins(calls: seq<HostCall>): set<Plugin> {
    if calls == [] then {} else Plugins(calls[..|calls| - 1]) + PluginsOf(calls[|calls| - 1])
  }

  /** The calls of several operations, one after the other. */
  function Flat(operations: seq<seq<HostCall>>): seq<HostCall> {
    if operations == [] then [] else Flat(operations[..|operations| - 1]) + operations[|operations| - 1]
  }

  /** The registry after one call. */
  function Served(s: Registry.State<Plugin>, c: HostCall): Registry.State<Plugin> {
    match c
    case LoadProvider(answer) => Apply(s, Registry.Provider(LoadOf(answer)))
    case DropProvider(p) => Apply(s, Registry.CloseProvider(p, p.closeErrs))
    case LoadRuntime(runtime, answer) => Apply(s, Registry.LanguageRuntime(runtime, LoadOf(answer)))
    case CloseHost => s
  }

  lemma AfterGrows(calls: seq<Call<Plugin>>, call: Call<Plugin>)
    ensures After(calls + [call]) == Apply(After(calls), call)
  {
    assert (calls + [call])[..|calls + [call]| - 1] == calls;
  }

  lemma CallsGrow(before: seq<HostCall>, c: HostCall)
    ensures After(History(before + [c])) == Served(After(History(before)), c)
    ensures Plugins(before + [c]) == Plugins(before) + PluginsOf(c)
    ensures forall p :: Drops(before + [c], p) == Drops(before, p) + if c == DropProvider(p) then 1 else 0
  {
    assert (before + [c])[..|before + [c]| - 1] == before;
    match c
    case LoadProvider(answer) => AfterGrows(History(before), Registry.Provider(LoadOf(answer)));
    case DropProvider(p) => AfterGrows(History(before), Registry.CloseProvider(p, p.closeErrs));
    case LoadRuntime(runtime, answer) => AfterGrows(History(before), Registry.LanguageRuntime(runtime, LoadOf(answer)));
    case CloseHost =>
  }

  /** The registry holds providers and runtimes among the given plugins, each under their own kind. */
  ghost predicate HoldsTyped(s: Registry.State<Plugin>, plugins: set<Plugin>) {
    && (forall p | p in s.resources :: p in plugins && p.kind == ResourcePlugin)
    && (forall r | r in s.languages :: s.languages[r] in plugins && s.languages[r].kind == LanguagePlugin)
  }

  lemma ServedIsTyped(s: Registry.State<Plugin>, c: HostCall, plugins: set<Plugin>)
    requires HoldsTyped(s, plugins) && Typed(c) && PluginsOf(c) <= plugins
    ensures HoldsTyped(Served(s, c), plugins)
  {
  }

  /** What the registry holds comes from the calls. */
  lemma {:induction false} RegistryIsTyped(calls: seq<HostCall>)
    requires forall k | 0 <= k < |calls| :: Typed(calls[k])
    ensures HoldsTyped(After(History(calls)), Plugins(calls))
  {
    if calls != [] {
      var init, last := calls[..|calls| - 1], calls[|calls| - 1];
      RegistryIsTyped(init);
      assert Typed(last) && calls == init + [last];
      CallsGrow(init, last);
      ServedIsTyped(After(History(init)), last, Plugins(calls));
    }
  }

  /** No operation closes a language runtime. */
  lemma {:induction false} RuntimesAreNotDropped(calls: seq<HostCall>, p: Plugin)
    requires forall k | 0 <= k < |calls| :: Typed(calls[k])
    ensures Drops(calls, p) > 0 ==> p.kind == ResourcePlugin
  {
    if calls != [] {
      RuntimesAreNotDropped(calls[..|calls| - 1], p);
      assert Typed(calls[|calls| - 1]);
    }
  }

  lemma {:induction false} PluginsAdd(before: seq<HostCall>, calls: seq<HostCall>)
    ensures Plugins(before + calls) == Plugins(before) + Plugins(calls)
    decreases |calls|
  {
    if calls == [] {
      assert before + calls == before;
    } else {
      var init, last := calls[..|calls| - 1], calls[|calls| - 1];
      PluginsAdd(before, init);
      assert before + calls == before + init + [last];
      CallsGrow(before + init, last);
    }
  }

  lemma {:induction false} PluginsOfPart(calls: seq<HostCall>, k: nat)
    requires k < |calls|
    ensures PluginsOf(calls[k]) <= Plugins(calls)
  {
    if k < |calls| - 1 { PluginsOfPart(calls[..|calls| - 1], k); }
  }

  lemma {:induction false} PluginsOfFlat(operations: seq<seq<HostCall>>, n: nat, k: nat)
    requires n < |operations| && k < |operations[n]|
    ensures PluginsOf(operations[n][k]) <= Plugins(Flat(operations))
    decreases |operations|
  {
    var init, last := operations[..|operations| - 1], operations[|operations| - 1];
    PluginsAdd(Flat(init), last);
    if n < |init| { PluginsOfFlat(init, n, k); } else { PluginsOfPart(last, k); }
  }

  /** wrapHost (stack.go:329-341): the engine's view of the host, whose Close does nothing. */
  class WrappedHost {
    const host: Host

    constructor (host: Host)
      ensures this.host == host
    {
      this.host := host;
    }

    method Close() {
    }

    /** One call of the engine; every other than Close goes to the real host. */
    method Serve(c: HostCall, plugins: set<Plugin>)
      requires PluginsOf(c) <= plugins
      modifies host, plugins
      ensures host.View() == Served(old(host.View()), c) && host.serving == old(host.serving)
      ensures forall p | p in plugins :: p.closes == old(p.closes) + if c == DropProvider(p) then 1 else 0
    {
      match c
      case LoadProvider(answer) => var _, _ := host.Provider(answer);
      case DropProvider(p) => var _ := host.CloseProvider(p);
      case LoadRuntime(runtime, answer) => var _, _ := host.LanguageRuntime(runtime, answer);
      case CloseHost => Close();
    }
  }

  /** One engine operation on a wrapped host, after the calls made before. */
  method RunOperation(wrapped: WrappedHost, calls: seq<HostCall>, plugins: set<Plugin>, ghost before: seq<HostCall>)
    requires wrapped.host.View() == After(History(before))
    requires forall k | 0 <= k < |calls| :: PluginsOf(calls[k]) <= plugins
    modifies wrapped.host, plugins
    ensures wrapped.host.View() == After(History(before + calls))
    ensures wrapped.host.serving == old(wrapped.host.serving)
    ensures forall p | p in plugins :: p.closes == old(p.closes) + Drops(before + calls, p) - Drops(before, p)
  {
    var host := wrapped.host;
    assert before + calls[..0] == before;
    for k := 0 to |calls|
      invariant host.View() == After(History(before + calls[..k])) && host.serving == old(host.serving)
      invariant forall p | p in plugins ::
                  p.closes == old(p.closes) + Drops(before + calls[..k], p) - Drops(before, p)
    {
      assert before + calls[..k + 1] == before + calls[..k] + [calls[k]];
      CallsGrow(before + calls[..k], calls[k]);
      wrapped.Serve(calls[k], plugins);
    }
    assert calls[..|calls|] == calls;
  }

  /** The operations of a pass, one after the other. */
  method RunOperations(host: Host, operations: seq<seq<HostCall>>, plugins: set<Plugin>)
    requires host.View() == Empty<Plugin>() && Plugins(Flat(operations)) <= plugins
    modifies host, plugins
    ensures host.View() == After(History(Flat(operations))) && host.serving == old(host.serving)
    ensures forall p | p in plugins :: p.closes == old(p.closes) + Drops(Flat(operations), p)
  {
    for n := 0 to |operations|
      invariant host.View() == After(History(Flat(operations[..n]))) && host.serving == old(host.serving)
      invariant forall p | p in plugins :: p.closes == old(p.closes) + Drops(Flat(operations[..n]), p)
    {
      assert operations[..n + 1][..n] == operations[..n];
      forall k | 0 <= k < |operations[n]| ensures PluginsOf(operations[n][k]) <= plugins {
        PluginsOfFlat(operations, n, k);
      }
      var wrapped := new WrappedHost(host);
      RunOperation(wrapped, operations[n], plugins, Flat(operations[..n]));
    }
    assert operations[..|operations|] == operations;
  }

  /** The host's lifetime over a pass (reconciler.go:84-92 and 180-189). However many operations run, each on
      a wrapped host that it may close at will, the real host serves until the deferred Close of the stack,
      which stops it exactly once, after all of them and only if there is a stack: a host made before a failing
      LoadStack is left serving. Until then the registry is that of the operations' calls. A provider is closed
      once by every CloseProvider of the operations, and once more at the end exactly if it was loaded and not
      successfully closed since: so a provider closed successfully is not closed again unless reloaded. A
      language runtime is closed at the end exactly if it is memoised then. */
  method PassLifetime(host: Host, stackLoads: bool, operations: seq<seq<HostCall>>, plugins: set<Plugin>)
    requires host.serving && host.View() == Empty<Plugin>()
    requires Plugins(Flat(operations)) <= plugins
    requires forall k | 0 <= k < |Flat(operations)| :: Typed(Flat(operations)[k])
    modifies host, plugins
    ensures host.serving <==> !stackLoads
    ensures host.View() == if stackLoads then Apply(After(History(Flat(operations))), Registry.Close)
                           else Empty<Plugin>()
    ensures !stackLoads ==> forall p | p in plugins :: p.closes == old(p.closes)
    ensures stackLoads ==> forall p | p in plugins && p.kind == ResourcePlugin ::
              p.closes == old(p.closes) + Drops(Flat(operations), p) +
                          if LoadedSince(History(Flat(operations)), p) then 1 else 0
    ensures stackLoads ==> forall p | p in plugins && p.kind == LanguagePlugin ::
              p.closes > old(p.closes) <==> p in After(History(Flat(operations))).languages.Values
  {
    if !stackLoads { return; }
    RunOperations(host, operations, plugins);
    ghost var all := Flat(operations);
    RegistryIsTyped(all);
    forall p | p in plugins
      ensures p in host.resourcePlugins <==> LoadedSince(History(all), p)
      ensures Drops(all, p) > 0 ==> p.kind == ResourcePlugin
    {
      RegisteredExactly(History(all), p);
      RuntimesAreNotDropped(all, p);
    }
    host.Close();
  }
}
