/**
 Which lifecycle route a config change takes. Maps, slices and structs that are only compared as a
 whole stand as optional texts; None is the nil value.
 */
module ConfigChange {
  import opened Wrappers

  type Blob = Option<string>

  datatype Route = HotApply | Reload | Rebind | RestartRequired

  datatype Listener = Listener(id: string, host: string, port: int)

  datatype Adapter = Adapter(
    enabled: bool, host: string, port: int, cursorIngressPort: int,
    models: Blob, modelProfiles: Blob, modelRoutes: Blob, defaultModel: string, passthroughOverrides: Blob,
    openAICompatPassthrough: Blob, rest: Blob)

  datatype Mitm = Mitm(
    enabledDefault: bool, listeners: map<string, Listener>, providers: Blob, dbPath: string, certPath: string,
    keyPath: string, rest: Blob)

  datatype Config = Config(grpcAddress: string, adapter: Adapter, mitm: Mitm, pprofAddr: string, rest: Blob)

  // ---- The classifier ----

  predicate ListenersMoved(a: map<string, Listener>, b: map<string, Listener>) {
    || |a| != |b|
    || exists id :: id in a && (id !in b || a[id].host != b[id].host || a[id].port != b[id].port)
  }

  predicate TopologyMoved(a: Config, b: Config) {
    || a.adapter.host != b.adapter.host || a.adapter.port != b.adapter.port
    || a.adapter.cursorIngressPort != b.adapter.cursorIngressPort
    || a.pprofAddr != b.pprofAddr
    || ListenersMoved(a.mitm.listeners, b.mitm.listeners)
  }

  predicate ReloadOnlyChanged(a: Config, b: Config) {
    a.mitm.dbPath != b.mitm.dbPath || a.mitm.certPath != b.mitm.certPath || a.mitm.keyPath != b.mitm.keyPath
  }

  function BlankHotFields(c: Config): Config {
    c.(adapter := c.adapter.(models := None, modelProfiles := None, modelRoutes := None, defaultModel := "",
                             passthroughOverrides := None, openAICompatPassthrough := None),
       mitm := c.mitm.(providers := None))
  }

  predicate OnlyHotFieldsChanged(a: Config, b: Config) {
    BlankHotFields(a) == BlankHotFields(b) && a != b
  }

  predicate SurfaceToggled(a: Config, b: Config) {
    a.grpcAddress != b.grpcAddress || a.adapter.enabled != b.adapter.enabled
      || a.mitm.enabledDefault != b.mitm.enabledDefault
  }

  function Classify(a: Config, b: Config): Route {
    if SurfaceToggled(a, b) then RestartRequired
    else if TopologyMoved(a, b) then Rebind
    else if ReloadOnlyChanged(a, b) then Reload
    else if OnlyHotFieldsChanged(a, b) then HotApply
    else Reload
  }

  // ---- How disruptive a route is ----

  function Weight(r: Route): nat {
    match r
    case HotApply => 0
    case Reload => 1
    case Rebind => 2
    case RestartRequired => 3
  }

  function Worse(a: Route, b: Route): Route {
    if Weight(a) >= Weight(b) then a else b
  }

  /** Hot apply exactly when the configs differ and agree once the hot fields are blanked. */
  lemma HotApplyIff(a: Config, b: Config)
    ensures Classify(a, b) == HotApply <==> a != b && BlankHotFields(a) == BlankHotFields(b)
  {
    if a != b && BlankHotFields(a) == BlankHotFields(b) {
      assert BlankHotFields(a).mitm.listeners == BlankHotFields(b).mitm.listeners;
    }
  }

  // ---- Which change takes which route ----

  /** What a restart is for: the control address, and whether the adapter and the proxy run at all. */
  predicate NeedsRestart(a: Config, b: Config) {
    !(a.grpcAddress == b.grpcAddress && a.adapter.enabled == b.adapter.enabled
      && a.mitm.enabledDefault == b.mitm.enabledDefault)
  }

  /** What a rebind is for: the places that are listened on. */
  predicate NeedsRebind(a: Config, b: Config) {
    !(a.adapter.host == b.adapter.host && a.adapter.port == b.adapter.port
      && a.adapter.cursorIngressPort == b.adapter.cursorIngressPort && a.pprofAddr == b.pprofAddr
      && SamePlaces(a.mitm.listeners, b.mitm.listeners))
  }

  /** The second config with the hot fields of the first. */
  function WithHotFieldsOf(a: Config, b: Config): Config {
    b.(adapter := b.adapter.(models := a.adapter.models, modelProfiles := a.adapter.modelProfiles,
                             modelRoutes := a.adapter.modelRoutes, defaultModel := a.adapter.defaultModel,
                             passthroughOverrides := a.adapter.passthroughOverrides,
                             openAICompatPassthrough := a.adapter.openAICompatPassthrough),
       mitm := b.mitm.(providers := a.mitm.providers))
  }

  lemma BlankedAlike(a: Config, b: Config)
    ensures BlankHotFields(a) == BlankHotFields(b) <==> WithHotFieldsOf(a, b) == a
  {
    if BlankHotFields(a) == BlankHotFields(b) {
      var x, y := BlankHotFields(a), BlankHotFields(b);
      assert x.adapter == y.adapter && x.mitm == y.mitm && x.rest == y.rest;
      assert WithHotFieldsOf(a, b).adapter == a.adapter && WithHotFieldsOf(a, b).mitm == a.mitm;
    }
  }

  /** Every change takes the least disruptive route that covers it. */
  lemma RouteIff(a: Config, b: Config)
    ensures Classify(a, b) == RestartRequired <==> NeedsRestart(a, b)
    ensures Classify(a, b) == Rebind <==> !NeedsRestart(a, b) && NeedsRebind(a, b)
    ensures Classify(a, b) == HotApply <==> a != b && WithHotFieldsOf(a, b) == a
  {
    hide ListenersMoved, SamePlaces, BlankHotFields, WithHotFieldsOf;
    UnmovedIsSame(a.mitm.listeners, b.mitm.listeners);
    HotApplyIff(a, b);
    BlankedAlike(a, b);
  }

  // ---- Listeners ----

  predicate SamePlaces(a: map<string, Listener>, b: map<string, Listener>) {
    a.Keys == b.Keys && forall id :: id in a ==> a[id].host == b[id].host && a[id].port == b[id].port
  }

  /** Equal size and one-way containment make the listener sets equal. */
  lemma UnmovedIsSame(a: map<string, Listener>, b: map<string, Listener>)
    ensures ListenersMoved(a, b) <==> !SamePlaces(a, b)
  {
    assert |a.Keys| == |a| && |b.Keys| == |b|;
    if !ListenersMoved(a, b) {
      assert a.Keys <= b.Keys;
      SubsetOfEqualSize(a.Keys, b.Keys);
    }
  }

  lemma SubsetOfEqualSize(s: set<string>, t: set<string>)
    requires s <= t && |s| == |t|
    ensures s == t
  {
    assert t == s + (t - s);
    assert |t - s| == 0;
  }

  lemma MovedIsSymmetric(a: map<string, Listener>, b: map<string, Listener>)
    ensures ListenersMoved(a, b) <==> ListenersMoved(b, a)
  {
    UnmovedIsSame(a, b);
    UnmovedIsSame(b, a);
  }

  /** The route does not depend on the direction of the change. */
  lemma ClassifyIsSymmetric(a: Config, b: Config)
    ensures Classify(a, b) == Classify(b, a)
  {
    hide ListenersMoved;
    MovedIsSymmetric(a.mitm.listeners, b.mitm.listeners);
  }

  lemma MovedInOneLeg(a: map<string, Listener>, b: map<string, Listener>, c: map<string, Listener>)
    ensures ListenersMoved(a, c) ==> ListenersMoved(a, b) || ListenersMoved(b, c)
  {
    hide ListenersMoved;
    UnmovedIsSame(a, b);
    UnmovedIsSame(b, c);
    UnmovedIsSame(a, c);
  }

  /**
   Going by way of b is never less disruptive than going straight, except that a change that leads
   back to the start by hot fields alone is hot on both legs while the unchanged config reloads.
   */
  lemma DetourIsNoCheaperIff(a: Config, b: Config, c: Config)
    ensures Weight(Classify(a, c)) <= Weight(Worse(Classify(a, b), Classify(b, c)))
       <==> !(a == c && a != b && BlankHotFields(a) == BlankHotFields(b))
  {
    hide ListenersMoved, BlankHotFields;
    MovedInOneLeg(a.mitm.listeners, b.mitm.listeners, c.mitm.listeners);
    HotApplyIff(a, b);
    HotApplyIff(b, c);
    HotApplyIff(a, c);
  }

  /** For two different configs the straight route is at most the worse of the two legs. */
  lemma DetourIsNoCheaper(a: Config, b: Config, c: Config)
    requires a != c
    ensures Weight(Classify(a, c)) <= Weight(Worse(Classify(a, b), Classify(b, c)))
  {
    hide Classify;
    DetourIsNoCheaperIff(a, b, c);
  }

  /** An unchanged config is classified as a reload. */
  lemma UnchangedReloads(a: Config)
    ensures Classify(a, a) == Reload
  {
    HotApplyIff(a, a);
  }

  /** Changing the default model and changing it back: both legs are hot, the straight way is a reload. */
  lemma HotRoundTrip(a: Config, model: string)
    requires model != a.adapter.defaultModel
    ensures
      var b := a.(adapter := a.adapter.(defaultModel := model));
      && Classify(a, b) == Classify(b, a) == HotApply && Classify(a, a) == Reload
      && Weight(Classify(a, a)) > Weight(Worse(Classify(a, b), Classify(b, a)))
  {
    var b := a.(adapter := a.adapter.(defaultModel := model));
    assert a != b && BlankHotFields(a) == BlankHotFields(b);
    hide Classify;
    HotApplyIff(a, b);
    HotApplyIff(b, a);
    UnchangedReloads(a);
  }
}
