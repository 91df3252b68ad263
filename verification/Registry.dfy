/** The plugin host's registry as a function of its call history. */
module Registry {
  import opened Options

  datatype PluginInfo = PluginInfo(name: string, version: Option<string>)

  /** What the host remembers. Plugins are identified by P. */
  datatype State<!P> = State(languages: map<string, P>, resources: map<P, PluginInfo>, reported: set<string>,
                             plugins: seq<PluginInfo>)

  function Empty<P>(): State<P> { State(map[], map[], {}, []) }

  /** What a loader hands back: a plugin or nil, and an error. */
  datatype Load<+P> = Load(plug: Option<P>, info: Option<PluginInfo>, err: bool)

  datatype Call<+P> =
    | Provider(load: Load<P>)
    | CloseProvider(plug: P, closeFails: bool)
    | LanguageRuntime(runtime: string, load: Load<P>)
    | Close

  /** The key under which a provider is reported: its name and version run together. */
  function Key(info: PluginInfo): string {
    info.name + match info.version case None => "" case Some(v) => v
  }

  /** A load that registers: no error, a plugin, and its information. */
  predicate Registers<P>(load: Load<P>) { !load.err && load.plug.Some? && load.info.Some? }

  predicate LoadErrs<P>(load: Load<P>) { load.err || (load.plug.Some? && load.info.None?) }

  function Apply<P>(s: State<P>, call: Call<P>): State<P> {
    match call
    case Provider(load) =>
      if !Registers(load) then s
      else
        var info := load.info.value;
        s.(reported := s.reported + {Key(info)},
           plugins := if Key(info) in s.reported then s.plugins else s.plugins + [info],
           resources := s.resources[load.plug.value := info])
    case CloseProvider(plug, closeFails) => if closeFails then s else s.(resources := s.resources - {plug})
    case LanguageRuntime(runtime, load) =>
      if runtime in s.languages || !Registers(load) then s
      else s.(plugins := s.plugins + [load.info.value], languages := s.languages[runtime := load.plug.value])
    case Close => s.(languages := map[], resources := map[])
  }

  predicate Fails<P>(s: State<P>, call: Call<P>) {
    match call
    case Provider(load) => LoadErrs(load)
    case CloseProvider(_, closeFails) => closeFails
    case LanguageRuntime(runtime, load) => runtime !in s.languages && LoadErrs(load)
    case Close => false
  }

  function After<P>(calls: seq<Call<P>>): State<P> {
    if calls == [] then Empty() else Apply(After(calls[..|calls| - 1]), calls[|calls| - 1])
  }

  // ----- the history, without the registry -----

  predicate RegistersKey<P>(call: Call<P>, key: string) {
    call.Provider? && Registers(call.load) && Key(call.load.info.value) == key
  }

  predicate RegistersRuntime<P>(call: Call<P>, runtime: string) {
    call.LanguageRuntime? && Registers(call.load) && call.runtime == runtime
  }

  /** Some earlier call registered a provider under this key. */
  ghost predicate KeyBefore<P>(calls: seq<Call<P>>, key: string) {
    exists k :: 0 <= k < |calls| && RegistersKey(calls[k], key)
  }

  /** Some earlier call registered this runtime and the host was not closed since. */
  ghost predicate RuntimeBefore<P>(calls: seq<Call<P>>, runtime: string) {
    exists k :: 0 <= k < |calls| && RegistersRuntime(calls[k], runtime) && NoCloseFrom(calls, k)
  }

  predicate NoCloseFrom<P>(calls: seq<Call<P>>, k: nat) {
    forall j | k <= j < |calls| :: !calls[j].Close?
  }

  /** What one more call adds to the list: the first provider of its key, or a runtime new since the last
      close. */
  ghost function Listing<P>(calls: seq<Call<P>>, call: Call<P>): seq<PluginInfo> {
    if call.Provider? && Registers(call.load) && !KeyBefore(calls, Key(call.load.info.value)) then
      [call.load.info.value]
    else if call.LanguageRuntime? && Registers(call.load) && !RuntimeBefore(calls, call.runtime) then
      [call.load.info.value]
    else []
  }

  ghost function Listed<P>(calls: seq<Call<P>>): seq<PluginInfo> {
    if calls == [] then []
    else Listed(calls[..|calls| - 1]) + Listing(calls[..|calls| - 1], calls[|calls| - 1])
  }

  // ----- main results -----

  lemma KeyGrows<P>(calls: seq<Call<P>>, key: string)
    requires calls != []
    ensures KeyBefore(calls, key) <==>
            KeyBefore(calls[..|calls| - 1], key) || RegistersKey(calls[|calls| - 1], key)
  {
    var init := calls[..|calls| - 1];
    if KeyBefore(init, key) {
      var k :| 0 <= k < |init| && RegistersKey(init[k], key);
      assert RegistersKey(calls[k], key);
    }
    if KeyBefore(calls, key) {
      var k :| 0 <= k < |calls| && RegistersKey(calls[k], key);
      if k < |init| { assert RegistersKey(init[k], key); }
    }
  }

  lemma RuntimeGrows<P>(calls: seq<Call<P>>, runtime: string)
    requires calls != []
    ensures RuntimeBefore(calls, runtime) <==>
            !calls[|calls| - 1].Close? &&
            (RuntimeBefore(calls[..|calls| - 1], runtime) || RegistersRuntime(calls[|calls| - 1], runtime))
  {
    var init, last := calls[..|calls| - 1], calls[|calls| - 1];
    if RuntimeBefore(calls, runtime) {
      var k :| 0 <= k < |calls| && RegistersRuntime(calls[k], runtime) && NoCloseFrom(calls, k);
      assert !calls[|calls| - 1].Close?;
      if k < |init| { assert RegistersRuntime(init[k], runtime) && NoCloseFrom(init, k); }
    }
    if !last.Close? && RuntimeBefore(init, runtime) {
      var k :| 0 <= k < |init| && RegistersRuntime(init[k], runtime) && NoCloseFrom(init, k);
      assert RegistersRuntime(calls[k], runtime) && NoCloseFrom(calls, k);
    }
    if !last.Close? && RegistersRuntime(last, runtime) {
      assert RegistersRuntime(calls[|init|], runtime) && NoCloseFrom(calls, |init|);
    }
  }

  /** The registry refines its history: over any calls, closes and reloads included, the plugins listed are in
      order the first provider of each key ever and each runtime's first load since the last close; the
      reported keys and the memoised runtimes are exactly those of the history. */
  lemma {:induction false} RegistryRefinesHistory<P>(calls: seq<Call<P>>)
    ensures After(calls).plugins == Listed(calls)
    ensures forall key :: key in After(calls).reported <==> KeyBefore(calls, key)
    ensures forall runtime :: runtime in After(calls).languages <==> RuntimeBefore(calls, runtime)
  {
    if calls != [] {
      var init := calls[..|calls| - 1];
      RegistryRefinesHistory(init);
      forall key ensures key in After(calls).reported <==> KeyBefore(calls, key) { KeyGrows(calls, key); }
      forall runtime ensures runtime in After(calls).languages <==> RuntimeBefore(calls, runtime) {
        RuntimeGrows(calls, runtime);
      }
    }
  }

  /** The call at position k lengthens the list of plugins. */
  ghost predicate AddsToList<P>(calls: seq<Call<P>>, k: nat)
    requires k < |calls|
  {
    |After(calls[..k + 1]).plugins| > |After(calls[..k]).plugins|
  }

  /** A call lengthens the list exactly if it registers a provider under a key that no call before it had, or a
      runtime that none since the last Close had. */
  lemma ListedExactly<P>(calls: seq<Call<P>>, k: nat)
    requires k < |calls|
    ensures AddsToList(calls, k) <==>
            var call := calls[k];
            || (call.Provider? && Registers(call.load) && !KeyBefore(calls[..k], Key(call.load.info.value)))
            || (call.LanguageRuntime? && Registers(call.load) && !RuntimeBefore(calls[..k], call.runtime))
  {
    var init, more := calls[..k], calls[..k + 1];
    RegistryRefinesHistory(init);
    RegistryRefinesHistory(more);
    assert more[..|more| - 1] == init && more[|more| - 1] == calls[k];
  }

  /** Two calls that both lengthen the list never list a provider under the same key, and a language runtime
      only with a Close in between. */
  lemma ListedOnce<P>(calls: seq<Call<P>>, j: nat, k: nat)
    requires j < k < |calls| && AddsToList(calls, j) && AddsToList(calls, k)
    ensures forall key :: !(RegistersKey(calls[j], key) && RegistersKey(calls[k], key))
    ensures forall runtime | RegistersRuntime(calls[j], runtime) && RegistersRuntime(calls[k], runtime) ::
              exists m :: j < m < k && calls[m].Close?
  {
    ListedExactly(calls, j);
    ListedExactly(calls, k);
    var before := calls[..k];
    assert before[j] == calls[j];
    forall key ensures !(RegistersKey(calls[j], key) && RegistersKey(calls[k], key)) {
      if RegistersKey(before[j], key) { assert KeyBefore(before, key); }
    }
    forall runtime | RegistersRuntime(calls[j], runtime) && RegistersRuntime(calls[k], runtime)
      ensures exists m :: j < m < k && calls[m].Close?
    {
      assert RegistersRuntime(before[j], runtime) && !RuntimeBefore(before, runtime);
      assert !NoCloseFrom(before, j);
      var m :| j <= m < |before| && before[m].Close?;
      assert calls[m].Close? && m != j;
    }
  }

  /** The registered providers are exactly those loaded and not closed since, successfully or with the host. */
  ghost predicate LoadedSince<P>(calls: seq<Call<P>>, p: P) {
    exists k :: 0 <= k < |calls| && LoadsProvider(calls[k], p) && KeptFrom(calls, k, p)
  }

  predicate LoadsProvider<P(==)>(call: Call<P>, p: P) {
    call.Provider? && Registers(call.load) && call.load.plug == Some(p)
  }

  predicate KeptFrom<P(==)>(calls: seq<Call<P>>, k: nat, p: P) {
    forall j | k < j < |calls| ::
      !calls[j].Close? && !(calls[j].CloseProvider? && calls[j].plug == p && !calls[j].closeFails)
  }

  lemma {:induction false} RegisteredExactly<P>(calls: seq<Call<P>>, p: P)
    ensures p in After(calls).resources <==> LoadedSince(calls, p)
  {
    if calls != [] {
      var init, last := calls[..|calls| - 1], calls[|calls| - 1];
      RegisteredExactly(init, p);
      if LoadedSince(init, p) && !last.Close? && !(last.CloseProvider? && last.plug == p && !last.closeFails) {
        var k :| 0 <= k < |init| && LoadsProvider(init[k], p) && KeptFrom(init, k, p);
        assert LoadsProvider(calls[k], p) && KeptFrom(calls, k, p);
      }
      if LoadsProvider(last, p) { assert LoadsProvider(calls[|init|], p) && KeptFrom(calls, |init|, p); }
      if LoadedSince(calls, p) {
        var k :| 0 <= k < |calls| && LoadsProvider(calls[k], p) && KeptFrom(calls, k, p);
        assert calls[|init|] == last;
        if k < |init| { assert LoadsProvider(init[k], p) && KeptFrom(init, k, p); }
      }
    }
  }

  /** A plugin without a version has its name for a key, one with a version both run together. */
  lemma KeysAre(name: string, version: string)
    ensures Key(PluginInfo(name, None)) == name
    ensures Key(PluginInfo(name, Some(version))) == name + version
  {
  }

  /** So of two plugins without a version both are listed exactly if their names differ. */
  lemma UnversionedListedByName<P>(one: P, two: P, p: string, q: string)
    ensures var calls := [Provider(Load(Some(one), Some(PluginInfo(p, None)), false)),
                          Provider(Load(Some(two), Some(PluginInfo(q, None)), false))];
            After<P>(calls).plugins ==
            if p == q then [PluginInfo(p, None)] else [PluginInfo(p, None), PluginInfo(q, None)]
  {
    var a: Call<P> := Provider(Load(Some(one), Some(PluginInfo(p, None)), false));
    var b: Call<P> := Provider(Load(Some(two), Some(PluginInfo(q, None)), false));
    var calls: seq<Call<P>> := [a, b];
    assert calls[..1] == [a] && [a][..0] == [];
    assert After([a]) == Apply(After<P>([]), a) && After(calls) == Apply(After([a]), b);
    assert Key(PluginInfo(p, None)) == p && Key(PluginInfo(q, None)) == q;
  }

  /** The key is not injective: a provider is left out of the list for an earlier one that is another plugin, if their
      names and versions run together to the same text. */
  lemma DistinctPluginsShareAKey()
    ensures var p, q := PluginInfo("aws", Some("12.0.0")), PluginInfo("aws1", Some("2.0.0"));
            p != q && Key(p) == Key(q)
    ensures var p, q := PluginInfo("aws", Some("12.0.0")), PluginInfo("aws1", Some("2.0.0"));
            var calls := [Provider(Load(Some(1), Some(p), false)), Provider(Load(Some(2), Some(q), false))];
            After<nat>(calls).plugins == [p]
  {
    var p, q := PluginInfo("aws", Some("12.0.0")), PluginInfo("aws1", Some("2.0.0"));
    assert Key(p) == "aws12.0.0" && Key(q) == "aws12.0.0";
    var a, b: Call<nat> := Provider(Load(Some(1), Some(p), false)), Provider(Load(Some(2), Some(q), false));
    var calls: seq<Call<nat>> := [a, b];
    var one := calls[..1];
    assert one == [a];
    assert After(one[..0]) == Empty<nat>();
    assert After(one) == Apply(After(one[..0]), a);
    assert After(calls) == Apply(After(one), b);
  }
}
