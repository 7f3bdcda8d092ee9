/**
How the Dry Run resolves a routing policy from the approved specs, the configuration and the
provider registry, with the executables probed, and how the dispatch drift gate resolves the
same content again without probing anything.
*/
module RoutingResolution {
  import opened Basics
  import opened Ledger
  import opened Routing

  datatype Route = Route(provider: string, model: string, budget: real)
  datatype Spec = Spec(route: Option<Route>, timeoutSeconds: int)
  datatype Config = Config(model: string, fallbacks: seq<string>, maxUSDPerRun: real)

  datatype Entry = Entry(enabled: bool, dialectID: string, revision: string, start: seq<string>, resume: seq<string>)

  /** What loading the embedded registry guarantees of every entry. */
  ghost predicate LoadedRegistry(registry: map<string, Entry>) {
    forall name <- registry :: name != "" && registry[name].dialectID != "" && registry[name].revision != ""
  }

  const RoutedPurposes := [Implementation, Review, Repair, FinalVerification, ApplyVerification]

  const Disclosure := "agents run with the provider's default permissions and the user's existing provider configuration; CFlow provides no sandbox guarantee"

  datatype Inputs = Inputs(
    cfg: Config,
    specs: seq<Spec>,
    registry: map<string, Entry>,
    promptHashes: map<Purpose, string>)

  // ----- The content of a resolution, said of the inputs alone -----

  /** Keeps the first of every name. */
  function FirstOnly(names: seq<string>): (r: seq<string>)
    ensures forall x :: x in r <==> x in names
    ensures forall i, j :: 0 <= i < j < |r| ==> r[i] != r[j]
  {
    if names == [] then []
    else
      var init, last := FirstOnly(names[..|names| - 1]), names[|names| - 1];
      assert names == names[..|names| - 1] + [last];
      if last in init then init else init + [last]
  }

  function Routed(specs: seq<Spec>): seq<string> {
    if specs == [] then []
    else
      var init, last := Routed(specs[..|specs| - 1]), specs[|specs| - 1];
      if last.route.None? then init else init + [last.route.value.provider]
  }

  lemma StartsEmpty()
    ensures FirstOnly(Routed([])) == []
  {
  }

  lemma FirstOnlyGrows(names: seq<string>, name: string)
    ensures FirstOnly(names + [name]) == if name in FirstOnly(names) then FirstOnly(names) else FirstOnly(names) + [name]
  {
    assert (names + [name])[..|names|] == names;
  }

  lemma RoutedGrows(specs: seq<Spec>, s: Spec)
    ensures Routed(specs + [s]) == if s.route.None? then Routed(specs) else Routed(specs) + [s.route.value.provider]
  {
    assert (specs + [s])[..|specs|] == specs;
  }

  /** The routed providers in spec order, then the configured fallbacks, each once. */
  function Providers(x: Inputs): seq<string> {
    FirstOnly(Routed(x.specs) + x.cfg.fallbacks)
  }

  /** The spec that sets a provider's route values: the first one routed to it. */
  function Setter(specs: seq<Spec>, provider: string): Option<Spec> {
    if specs == [] then None
    else if specs[0].route.Some? && specs[0].route.value.provider == provider then Some(specs[0])
    else Setter(specs[1..], provider)
  }

  function RouteModel(x: Inputs, provider: string): string {
    var s := Setter(x.specs, provider);
    var m := if s.None? || s.value.route.None? || s.value.route.value.model == "default" then "" else s.value.route.value.model;
    if m == "" then x.cfg.model else m
  }

  function RouteBudget(x: Inputs, provider: string): real {
    var s := Setter(x.specs, provider);
    var b := if s.None? || s.value.route.None? then 0.0 else s.value.route.value.budget;
    if b == 0.0 && x.cfg.maxUSDPerRun > 0.0 then x.cfg.maxUSDPerRun else b
  }

  function RouteTimeout(x: Inputs, provider: string): int {
    var s := Setter(x.specs, provider);
    if s.None? then 0 else s.value.timeoutSeconds
  }

  predicate Selectable(x: Inputs, provider: string) {
    provider in x.registry && x.registry[provider].enabled
  }

  /** The approved content of one binding, executable pins blank. */
  function Content(x: Inputs, purpose: Purpose, provider: string): RouteBinding
    requires Selectable(x, provider) && purpose in x.promptHashes
  {
    var e := x.registry[provider];
    RouteBinding(provider, RouteModel(x, provider), RouteBudget(x, provider), RouteTimeout(x, provider),
                 x.promptHashes[purpose], Disclosure, e.dialectID, e.revision, e.start, e.resume, "", "", "")
  }

  /** A provider whose content can be approved. */
  predicate Approvable(x: Inputs, provider: string) {
    Selectable(x, provider) && HasCaps(x.registry[provider].start, RequiredStart)
  }

  predicate Resolvable(x: Inputs) {
    && (forall purpose <- RoutedPurposes :: purpose in x.promptHashes)
    && (forall provider <- Providers(x) :: Approvable(x, provider))
    && Providers(x) != []
  }

  /** A policy with the expected providers in order, each binding of the expected content. */
  ghost predicate Matches(x: Inputs, purpose: Purpose, p: RoutingPolicy) {
    && p.purpose == purpose && purpose in x.promptHashes
    && |p.bindings| == |Providers(x)|
    && (forall i :: 0 <= i < |p.bindings| ==>
        Approvable(x, Providers(x)[i]) && BlankBinding(p.bindings[i]) == Content(x, purpose, Providers(x)[i]))
  }

  ghost predicate Resolves(x: Inputs, s: PolicySet) {
    && Resolvable(x)
    && s.configModel == x.cfg.model && s.configFallbacks == x.cfg.fallbacks
    && |s.policies| == |RoutedPurposes|
    && (forall i :: 0 <= i < |s.policies| ==> Matches(x, RoutedPurposes[i], s.policies[i]))
  }

  /** Whenever it is probed, every wanted provider answers with a supported installation of the registry's protocol. */
  ghost predicate Sane(x: Inputs, probe: Probe) {
    forall p, n: nat :: p in Providers(x) && p in x.registry ==> AnswersWell(x, probe, p, n)
  }

  predicate AnswersWell(x: Inputs, probe: Probe, p: string, n: nat)
    requires p in x.registry
  {
    && probe(p, n).Some? && probe(p, n).value.supported
    && probe(p, n).value.dialectID == x.registry[p].dialectID
    && probe(p, n).value.registryRevision == x.registry[p].revision
  }

  // ----- The resolution -----

  class Resolution {
    const x: Inputs
    const detect: bool
    const probe: Probe
    var installs: map<string, Installation>
    var probed: seq<string>

    constructor (x: Inputs, detect: bool, probe: Probe)
      ensures this.x == x && this.detect == detect && this.probe == probe && installs == map[] && probed == [] && ProbedOnce()
    {
      this.x, this.detect, this.probe := x, detect, probe;
      installs, probed := map[], [];
    }

    ghost predicate ProbedOnce()
      reads this
    {
      && (forall p :: p in probed <==> p in installs)
      && (forall i, j :: 0 <= i < j < |probed| ==> probed[i] != probed[j])
      && (!detect ==> probed == [])
      && FromProbes(installs, probe)
    }

    /** What this pass learned only grows. */
    twostate predicate Grew()
      reads this
    {
      forall p <- old(installs) :: p in installs && installs[p] == old(installs)[p]
    }

    ghost predicate Pinned(b: RouteBinding)
      reads this
    {
      if detect then
        && b.provider in installs
        && b.executablePath == installs[b.provider].executablePath
        && b.executableSHA256 == installs[b.provider].executableSHA256
        && b.cliVersion == installs[b.provider].cliVersion
        && Compares(installs[b.provider], b, false)
      else
        b.executablePath == "" && b.executableSHA256 == "" && b.cliVersion == ""
    }

    /** One probe per provider and pass; a pass that does not probe learns nothing. */
    method FindInstallation(provider: string) returns (inst: Option<Installation>)
      requires ProbedOnce()
      modifies this
      ensures Grew()
      ensures !detect ==> inst == Some(Installation(false, "", "", "", "", ""))
      ensures inst.Some? ==> ProbedOnce()
      ensures detect && inst.Some? ==> provider in installs && installs[provider] == inst.value
      ensures detect && inst.None? ==> probe(provider, |old(probed)|).None?
    {
      if !detect {
        return Some(Installation(false, "", "", "", "", ""));
      }
      if provider in installs {
        return Some(installs[provider]);
      }
      inst := probe(provider, |probed|);
      probed := probed + [provider];
      if inst.Some? {
        assert Given(probe, provider, inst.value);
        installs := installs[provider := inst.value];
      }
    }

    /** A binding of the expected content, proven and pinned; without probing it only takes approvable facts. */
    method BindRoute(purpose: Purpose, provider: string) returns (b: Option<RouteBinding>)
      requires ProbedOnce() && purpose in x.promptHashes
      modifies this
      ensures Grew()
      ensures b.Some? ==> ProbedOnce() && Pinned(b.value)
      ensures b.Some? ==> Approvable(x, provider) && BlankBinding(b.value) == Content(x, purpose, provider)
      ensures !detect ==> (b.Some? <==> Approvable(x, provider))
      ensures Sane(x, probe) && provider in Providers(x) && Approvable(x, provider) ==> b.Some?
    {
      if provider !in x.registry || !x.registry[provider].enabled {
        return None;
      }
      var entry := x.registry[provider];
      var rb := Content(x, purpose, provider);
      ghost var n := |probed|;
      var found := FindInstallation(provider);
      if Sane(x, probe) && provider in Providers(x) {
        assert AnswersWell(x, probe, provider, n);
        assert detect ==> Given(probe, provider, found.value);
        if k: nat :| probe(provider, k) == found { assert AnswersWell(x, probe, provider, k); }
      }
      if found.None? {
        return None;
      }
      var inst := found.value;
      if !detect {
        inst := inst.(supported := true, dialectID := entry.dialectID, registryRevision := entry.revision);
      }
      if !Compares(inst, rb, false) {
        return None;
      }
      return Some(rb.(executablePath := inst.executablePath, executableSHA256 := inst.executableSHA256,
                              cliVersion := inst.cliVersion));
    }

    method PurposeProviders() returns (providers: seq<string>)
      ensures providers == Providers(x)
    {
      hide FirstOnly, Routed;
      providers := [];
      StartsEmpty();
      for i := 0 to |x.specs|
        invariant providers == FirstOnly(Routed(x.specs[..i]))
      {
        assert x.specs[..i + 1] == x.specs[..i] + [x.specs[i]];
        RoutedGrows(x.specs[..i], x.specs[i]);
        if x.specs[i].route.Some? {
          FirstOnlyGrows(Routed(x.specs[..i]), x.specs[i].route.value.provider);
          if x.specs[i].route.value.provider !in providers {
            providers := providers + [x.specs[i].route.value.provider];
          }
        }
      }
      assert x.specs[..|x.specs|] == x.specs;
      ghost var names := Routed(x.specs);
      assert names + x.cfg.fallbacks[..0] == names;
      for i := 0 to |x.cfg.fallbacks|
        invariant providers == FirstOnly(names + x.cfg.fallbacks[..i])
      {
        assert names + x.cfg.fallbacks[..i + 1] == names + x.cfg.fallbacks[..i] + [x.cfg.fallbacks[i]];
        FirstOnlyGrows(names + x.cfg.fallbacks[..i], x.cfg.fallbacks[i]);
        if x.cfg.fallbacks[i] !in providers {
          providers := providers + [x.cfg.fallbacks[i]];
        }
      }
      assert x.cfg.fallbacks[..|x.cfg.fallbacks|] == x.cfg.fallbacks;
    }

    method PurposePolicy(purpose: Purpose) returns (p: Option<RoutingPolicy>)
      requires ProbedOnce()
      modifies this
      ensures Grew()
      ensures p.Some? ==> ProbedOnce() && Providers(x) != [] && Matches(x, purpose, p.value)
      ensures p.Some? ==> forall b <- p.value.bindings :: Pinned(b)
      ensures p.Some? ==> purpose in x.promptHashes && forall q <- Providers(x) :: Approvable(x, q)
      ensures !detect ==>
        (p.Some? <==> purpose in x.promptHashes && Providers(x) != [] && forall q <- Providers(x) :: Approvable(x, q))
      ensures Sane(x, probe) && purpose in x.promptHashes && Providers(x) != [] && (forall q <- Providers(x) :: Approvable(x, q)) ==> p.Some?
    {
      if purpose !in x.promptHashes {
        return None;
      }
      var providers := PurposeProviders();
      var bindings := [];
      for i := 0 to |providers|
        invariant ProbedOnce() && Grew() && |bindings| == i
        invariant forall k :: 0 <= k < i ==>
          Approvable(x, providers[k]) && BlankBinding(bindings[k]) == Content(x, purpose, providers[k])
        invariant forall k :: 0 <= k < i ==> Pinned(bindings[k])
      {
        var b := BindRoute(purpose, providers[i]);
        if b.None? {
          return None;
        }
        bindings := bindings + [b.value];
      }
      if bindings == [] {
        return None;
      }
      return Some(RoutingPolicy(purpose, bindings));
    }

    /**
    A resolved set has exactly the content its inputs determine, with every binding pinned to
    the one installation found for its provider. Without probing, it resolves whenever the
    inputs allow it.
    */
    method ResolveRoutingInputs() returns (s: Option<PolicySet>)
      requires installs == map[] && probed == []
      modifies this
      ensures s.Some? ==> Resolves(x, s.value) && ProbedOnce()
      ensures s.Some? ==> forall p <- s.value.policies :: forall b <- p.bindings :: Pinned(b)
      ensures !detect ==> (s.Some? <==> Resolvable(x))
      ensures Sane(x, probe) && Resolvable(x) ==> s.Some?
    {
      hide Matches, Providers, Approvable, Sane, Compares;
      var policies := [];
      for i := 0 to |RoutedPurposes|
        invariant ProbedOnce() && |policies| == i
        invariant i > 0 ==> Providers(x) != [] && forall q <- Providers(x) :: Approvable(x, q)
        invariant forall k :: 0 <= k < i ==> RoutedPurposes[k] in x.promptHashes
        invariant forall k :: 0 <= k < i ==> Matches(x, RoutedPurposes[k], policies[k])
        invariant forall k :: 0 <= k < i ==> forall b <- policies[k].bindings :: Pinned(b)
      {
        var p := PurposePolicy(RoutedPurposes[i]);
        if p.None? {
          return None;
        }
        policies := policies + [p.value];
      }
      return Some(PolicySet(x.cfg.model, x.cfg.fallbacks, policies));
    }
  }

  // ----- What is promised of the resolved set -----

  /** A resolved set binds distinct providers, in the expected order, and is valid. */
  lemma ResolvedIsValid(x: Inputs, s: PolicySet)
    requires LoadedRegistry(x.registry) && Resolves(x, s)
    ensures Routing.Valid(s)
    ensures forall i, j :: 0 <= i < |s.policies| && 0 <= j < |s.policies[i].bindings| ==>
      s.policies[i].bindings[j].provider == Providers(x)[j]
  {
    forall p | p in s.policies ensures PolicyOk(p) {
      var i :| 0 <= i < |s.policies| && s.policies[i] == p;
      assert Matches(x, RoutedPurposes[i], p);
      forall j | 0 <= j < |p.bindings| ensures p.bindings[j].provider == Providers(x)[j] && BindingOk(p.bindings[j]) {
        assert BlankBinding(p.bindings[j]).provider == p.bindings[j].provider;
      }
    }
  }

  predicate RoutesTo(spec: Spec, provider: string) {
    spec.route.Some? && spec.route.value.provider == provider
  }

  /** The first spec routed to the provider. */
  ghost predicate FirstRouted(specs: seq<Spec>, provider: string, k: nat) {
    k < |specs| && RoutesTo(specs[k], provider) && forall j :: 0 <= j < k ==> !RoutesTo(specs[j], provider)
  }

  lemma {:induction false} SetterIsFirst(specs: seq<Spec>, provider: string, k: nat)
    requires FirstRouted(specs, provider, k)
    ensures Setter(specs, provider) == Some(specs[k])
  {
    if k > 0 {
      assert !RoutesTo(specs[0], provider);
      assert forall j :: 0 <= j < k - 1 ==> specs[1..][j] == specs[j + 1];
      SetterIsFirst(specs[1..], provider, k - 1);
    }
  }

  lemma {:induction false} NoSetter(specs: seq<Spec>, provider: string)
    requires forall j :: 0 <= j < |specs| ==> !RoutesTo(specs[j], provider)
    ensures Setter(specs, provider) == None
  {
    if specs != [] {
      assert !RoutesTo(specs[0], provider);
      NoSetter(specs[1..], provider);
    }
  }

  /**
  What a resolved binding carries. Of the first spec routed to its provider: the model, unless
  empty or "default", the budget, unless zero under a cap, and the timeout; the configured model
  and cap fill in. Of the registry: the protocol facts and the capabilities. Of its purpose: the
  prompt.
  */
  lemma RouteContent(x: Inputs, s: PolicySet, i: nat, j: nat, k: nat)
    requires Resolves(x, s) && i < |s.policies| && j < |s.policies[i].bindings|
    ensures
      var b := s.policies[i].bindings[j];
      && b.provider in x.registry && x.registry[b.provider].enabled
      && s.policies[i].purpose == RoutedPurposes[i] && RoutedPurposes[i] in x.promptHashes
      && b.promptHash == x.promptHashes[RoutedPurposes[i]] && b.disclosure == Disclosure
      && b.dialectID == x.registry[b.provider].dialectID && b.registryRevision == x.registry[b.provider].revision
      && b.startCapabilities == x.registry[b.provider].start && b.resumeCapabilities == x.registry[b.provider].resume
      && "session_id_on_start" in b.startCapabilities && "structured_output" in b.startCapabilities
    ensures FirstRouted(x.specs, s.policies[i].bindings[j].provider, k) ==>
      var b, route := s.policies[i].bindings[j], x.specs[k].route.value;
      && b.model == (if route.model == "" || route.model == "default" then x.cfg.model else route.model)
      && b.budgetUSD == (if route.budget == 0.0 && x.cfg.maxUSDPerRun > 0.0 then x.cfg.maxUSDPerRun else route.budget)
      && b.timeoutSeconds == x.specs[k].timeoutSeconds
    ensures (forall spec <- x.specs :: !RoutesTo(spec, s.policies[i].bindings[j].provider)) ==>
      var b := s.policies[i].bindings[j];
      && b.model == x.cfg.model && b.timeoutSeconds == 0
      && b.budgetUSD == (if x.cfg.maxUSDPerRun > 0.0 then x.cfg.maxUSDPerRun else 0.0)
  {
    var b := s.policies[i].bindings[j];
    var provider := Providers(x)[j];
    assert Matches(x, RoutedPurposes[i], s.policies[i]);
    assert BlankBinding(b) == Content(x, RoutedPurposes[i], provider) && b.provider == provider;
    assert "session_id_on_start" in RequiredStart && "structured_output" in RequiredStart;
    if FirstRouted(x.specs, provider, k) {
      SetterIsFirst(x.specs, provider, k);
    }
    if forall spec <- x.specs :: !RoutesTo(spec, provider) {
      NoSetter(x.specs, provider);
    }
    hide Matches, Resolves, Providers, Setter, FirstRouted;
  }

  /**
  Providers come in the order of the specs, then of the fallbacks: whatever spec is routed to a
  later provider has one before it routed to the earlier, and a provider of no spec comes after
  all that have one.
  */
  lemma ProvidersInOrder(x: Inputs, i: nat, j: nat)
    requires i < j < |Providers(x)|
    ensures
      var p, q := Providers(x)[i], Providers(x)[j];
      && (forall t :: 0 <= t < |x.specs| && RoutesTo(x.specs[t], q) ==> exists r :: 0 <= r < t && RoutesTo(x.specs[r], p))
      && ((forall spec <- x.specs :: !RoutesTo(spec, p)) ==> MentionedBefore(x.cfg.fallbacks, p, q))
  {
    var all := Routed(x.specs) + x.cfg.fallbacks;
    var p, q := Providers(x)[i], Providers(x)[j];
    FirstOnlyOrder(all, i, j);
    hide FirstOnly, Routed;
    var a, b :| 0 <= a < b < |all| && all[a] == p && all[b] == q && q !in all[..b];
    forall t | 0 <= t < |x.specs| && RoutesTo(x.specs[t], q) ensures exists r :: 0 <= r < t && RoutesTo(x.specs[r], p) {
      var r := SpecBefore(x.specs, x.cfg.fallbacks, p, q, a, b, t);
    }
    if forall spec <- x.specs :: !RoutesTo(spec, p) {
      FallbackBefore(x.specs, x.cfg.fallbacks, p, q, a, b);
    }
  }

  lemma SpecBefore(specs: seq<Spec>, fallbacks: seq<string>, p: string, q: string, a: nat, b: nat, t: nat) returns (r: nat)
    requires var all := Routed(specs) + fallbacks; a < b < |all| && all[a] == p && all[b] == q && q !in all[..b]
    requires t < |specs| && RoutesTo(specs[t], q)
    ensures r < t && RoutesTo(specs[r], p)
  {
    var all, before := Routed(specs) + fallbacks, Routed(specs[..t]);
    RoutedPrefix(specs, t);
    hide Routed;
    var n := |before|;
    assert all[n] == Routed(specs)[n] == q;
    assert forall z :: 0 <= z < b ==> all[z] == all[..b][z] != q;
    assert all[a] == Routed(specs)[a] == Routed(specs)[..n][a] == before[a];
    r := RoutedFrom(specs[..t], p);
  }

  lemma FallbackBefore(specs: seq<Spec>, fallbacks: seq<string>, p: string, q: string, a: nat, b: nat)
    requires var all := Routed(specs) + fallbacks; a < b < |all| && all[a] == p && all[b] == q && q !in all[..b]
    requires forall spec <- specs :: !RoutesTo(spec, p)
    ensures MentionedBefore(fallbacks, p, q)
  {
    var names := Routed(specs);
    var n, all := |names|, names + fallbacks;
    Unnamed(specs, p);
    hide Routed;
    assert forall z :: 0 <= z < n ==> all[z] == names[z] != p;
    assert fallbacks[a - n] == p && fallbacks[b - n] == q;
    assert all[..b] == names + fallbacks[..b - n];
    assert q !in fallbacks[..b - n];
  }

  lemma {:induction false} Unnamed(specs: seq<Spec>, p: string)
    requires forall spec <- specs :: !RoutesTo(spec, p)
    ensures p !in Routed(specs)
  {
    if specs != [] {
      var n := |specs| - 1;
      assert !RoutesTo(specs[n], p);
      Unnamed(specs[..n], p);
    }
  }

  /** The mentions of a longer list of specs begin with those of a shorter. */
  lemma {:induction false} RoutedPrefix(specs: seq<Spec>, t: nat)
    requires t < |specs| && specs[t].route.Some?
    ensures
      var before, names := Routed(specs[..t]), Routed(specs);
      |before| < |names| && names[..|before|] == before && names[|before|] == specs[t].route.value.provider
  {
    var n := |specs| - 1;
    assert specs == specs[..n] + [specs[n]];
    RoutedGrows(specs[..n], specs[n]);
    if t < n {
      RoutedPrefix(specs[..n], t);
      assert specs[..n][..t] == specs[..t];
    }
  }

  lemma {:induction false} RoutedFrom(specs: seq<Spec>, p: string) returns (r: nat)
    requires p in Routed(specs)
    ensures r < |specs| && RoutesTo(specs[r], p)
  {
    var n := |specs| - 1;
    if p in Routed(specs[..n]) {
      r := RoutedFrom(specs[..n], p);
    } else {
      r := n;
    }
  }

  /** The content of a resolution is determined by its inputs. */
  lemma ContentIsDetermined(x: Inputs, s: PolicySet, t: PolicySet)
    requires Resolves(x, s) && Resolves(x, t)
    ensures Blank(s) == Blank(t)
  {
    forall i | 0 <= i < |s.policies| ensures BlankPolicy(s.policies[i]) == BlankPolicy(t.policies[i]) {
      assert Matches(x, RoutedPurposes[i], s.policies[i]) && Matches(x, RoutedPurposes[i], t.policies[i]);
      assert BlankPolicy(s.policies[i]).bindings == BlankPolicy(t.policies[i]).bindings;
    }
    assert Blank(s).policies == Blank(t).policies;
  }

  /** The codec loses nothing of the sets these inputs resolve to, with their pins or without. */
  ghost predicate LosslessFor(x: Inputs, c: Codec) {
    forall s :: Resolves(x, s) ==> Lossless(c, Body(1, s)) && Lossless(c, Body(0, Blank(s)))
  }

  /**
  The approval and its later check. The Dry Run resolves with probes, the set is stored and
  read back, and the drift gate resolves again without probes: if nothing configured changed,
  the stored set is read back whole, the gate's own resolution succeeds and the two agree.
  */
  method DriftGate(x: Inputs, probe: Probe, c: Codec) returns (approved: Option<PolicySet>, current: Option<PolicySet>)
    requires LoadedRegistry(x.registry) && LosslessFor(x, c)
    ensures approved.Some? ==> Resolves(x, approved.value) && Routing.Valid(approved.value)
    ensures Resolvable(x) && Sane(x, probe) ==> approved.Some?
    ensures approved.Some? ==> current.Some? && ContentEqual(c, approved.value, current.value)
  {
    var dryRun := new Resolution(x, true, probe);
    var resolved := dryRun.ResolveRoutingInputs();
    if resolved.None? {
      return None, None;
    }
    ResolvedIsValid(x, resolved.value);
    approved := ParseMarshalled(c, resolved.value);
    var again := new Resolution(x, false, probe);
    current := again.ResolveRoutingInputs();
    ContentIsDetermined(x, approved.value, current.value);
    ContentEqualIff(c, approved.value, current.value);
  }

  /** `x` is mentioned before `y` first is. */
  ghost predicate MentionedBefore(names: seq<string>, x: string, y: string) {
    exists a, b :: 0 <= a < b < |names| && names[a] == x && names[b] == y && y !in names[..b]
  }

  /** Providers keep the order of their first mention. */
  lemma {:induction false} FirstOnlyOrder(names: seq<string>, i: nat, j: nat)
    requires i < j < |FirstOnly(names)|
    ensures MentionedBefore(names, FirstOnly(names)[i], FirstOnly(names)[j])
  {
    var n := |names| - 1;
    var init := names[..n];
    var x, y := FirstOnly(names)[i], FirstOnly(names)[j];
    assert FirstOnly(init)[i] == x && x in FirstOnly(init);
    if j < |FirstOnly(init)| {
      FirstOnlyOrder(init, i, j);
      var a, b :| 0 <= a < b < |init| && init[a] == x && init[b] == y && y !in init[..b];
      assert names[a] == x && names[b] == y && names[..b] == init[..b];
    } else {
      var a :| 0 <= a < |init| && init[a] == x;
      assert names[a] == x && names[n] == y && y !in init;
    }
  }
}
