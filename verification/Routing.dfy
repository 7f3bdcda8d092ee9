/**
The immutable routing policy of an execution approval: for every purpose an ordered list of
approved provider bindings, and the comparison of detected installations against them.
*/
module Routing {
  import opened Basics
  import opened Ledger

  datatype RouteBinding = RouteBinding(
    provider: string,
    model: string,
    budgetUSD: real,
    timeoutSeconds: int,
    promptHash: string,
    disclosure: string,
    dialectID: string,
    registryRevision: string,
    startCapabilities: seq<string>,
    resumeCapabilities: seq<string>,
    executablePath: string,
    executableSHA256: string,
    cliVersion: string)

  datatype RoutingPolicy = RoutingPolicy(purpose: Purpose, bindings: seq<RouteBinding>)

  datatype PolicySet = PolicySet(configModel: string, configFallbacks: seq<string>, policies: seq<RoutingPolicy>)

  datatype Installation = Installation(
    supported: bool,
    executablePath: string,
    executableSHA256: string,
    cliVersion: string,
    dialectID: string,
    registryRevision: string)

  const RequiredStart := ["session_id_on_start", "structured_output"]
  const RequiredResume := ["resume_by_session_id", "structured_output"]

  predicate HasCaps(have: seq<string>, required: seq<string>) {
    forall want <- required :: want in have
  }

  // ----- Lookups -----

  /** The first policy of the purpose. */
  function Policy(policies: seq<RoutingPolicy>, purpose: Purpose): (r: Option<RoutingPolicy>)
    ensures r.None? ==> forall p <- policies :: p.purpose != purpose
    ensures r.Some? ==> exists i | 0 <= i < |policies| ::
      policies[i] == r.value && r.value.purpose == purpose && forall j :: 0 <= j < i ==> policies[j].purpose != purpose
  {
    if policies == [] then None
    else if policies[0].purpose == purpose then Some(policies[0])
    else Policy(policies[1..], purpose)
  }

  /** Where a provider is first bound, or the length of the list. */
  function Place(bindings: seq<RouteBinding>, provider: string): (i: nat)
    ensures i <= |bindings|
    ensures i < |bindings| ==> bindings[i].provider == provider
    ensures forall j :: 0 <= j < i ==> bindings[j].provider != provider
  {
    if bindings == [] || bindings[0].provider == provider then 0 else 1 + Place(bindings[1..], provider)
  }

  function Resolve(s: PolicySet, purpose: Purpose, provider: string): Option<RouteBinding> {
    match Policy(s.policies, purpose)
    case None => None
    case Some(pol) =>
      var i := Place(pol.bindings, provider);
      if i < |pol.bindings| then Some(pol.bindings[i]) else None
  }

  function Fallback(s: PolicySet, purpose: Purpose, provider: string): Option<RouteBinding> {
    match Policy(s.policies, purpose)
    case None => None
    case Some(pol) =>
      var i := Place(pol.bindings, provider);
      if i + 1 < |pol.bindings| then Some(pol.bindings[i + 1]) else None
  }

  /** What is approved: the first binding of the provider in the first policy of the purpose, if there is one. */
  lemma ResolveMeans(s: PolicySet, purpose: Purpose, provider: string)
    requires Valid(s)
    ensures Resolve(s, purpose, provider).Some? <==>
      exists p <- s.policies :: p.purpose == purpose && exists b <- p.bindings :: b.provider == provider
    ensures Resolve(s, purpose, provider).Some? ==> exists p <- s.policies ::
      p.purpose == purpose && Resolve(s, purpose, provider).value in p.bindings && Resolve(s, purpose, provider).value.provider == provider
  {
    var found := Policy(s.policies, purpose);
    if found.Some? {
      var i :| 0 <= i < |s.policies| && s.policies[i] == found.value;
      forall p | p in s.policies && p.purpose == purpose ensures p == found.value {
        var j :| 0 <= j < |s.policies| && s.policies[j] == p;
        assert i == j;
      }
    }
  }

  // ----- Fallback chains -----

  /** Providers visited by repeated fallback, each hop approved by the policy. */
  ghost predicate Hops(s: PolicySet, purpose: Purpose, path: seq<string>) {
    forall i, j :: 0 <= i < |path| && 0 <= j < |path| && j == i + 1 ==> Hop(s, purpose, path[i], path[j])
  }

  ghost predicate Hop(s: PolicySet, purpose: Purpose, from: string, to: string) {
    Fallback(s, purpose, from).Some? && Fallback(s, purpose, from).value.provider == to
  }

  ghost predicate Distinct(bindings: seq<RouteBinding>) {
    forall i, j :: 0 <= i < j < |bindings| ==> bindings[i].provider != bindings[j].provider
  }

  /** With distinct providers every hop moves to the very next place of the list. */
  lemma HopMovesLater(s: PolicySet, purpose: Purpose, from: string, to: string)
    requires Policy(s.policies, purpose).Some? && Distinct(Policy(s.policies, purpose).value.bindings)
    requires Hop(s, purpose, from, to)
    ensures
      var bindings := Policy(s.policies, purpose).value.bindings;
      Place(bindings, to) == Place(bindings, from) + 1 < |bindings|
  {
    var bindings := Policy(s.policies, purpose).value.bindings;
    var i := Place(bindings, from);
    assert bindings[i + 1].provider == to;
    assert Place(bindings, to) <= i + 1;
  }

  lemma {:induction false} ChainPlaces(s: PolicySet, purpose: Purpose, path: seq<string>, n: nat)
    requires Policy(s.policies, purpose).Some? && Distinct(Policy(s.policies, purpose).value.bindings)
    requires Hops(s, purpose, path) && n < |path|
    ensures
      var bindings := Policy(s.policies, purpose).value.bindings;
      Place(bindings, path[n]) == Place(bindings, path[0]) + n && (n > 0 ==> Place(bindings, path[n]) < |bindings|)
  {
    if n > 0 {
      assert Hop(s, purpose, path[n - 1], path[n]);
      ChainPlaces(s, purpose, path, n - 1);
      HopMovesLater(s, purpose, path[n - 1], path[n]);
    }
  }

  /** A chain from the primary binding, of n hops. */
  ghost predicate ChainOf(s: PolicySet, purpose: Purpose, path: seq<string>, n: nat) {
    && |path| == n + 1 && Hops(s, purpose, path)
    && Policy(s.policies, purpose).Some? && Policy(s.policies, purpose).value.bindings != []
    && path[0] == Policy(s.policies, purpose).value.bindings[0].provider
  }

  /**
  Fallback looks a provider up by its first place, so a provider bound twice sends it round
  in a circle: chains from the primary are shorter than the binding list exactly when no
  provider is bound twice, which is what validation demands.
  */
  lemma ChainsEndIffDistinct(s: PolicySet, purpose: Purpose)
    requires Policy(s.policies, purpose).Some? && Policy(s.policies, purpose).value.bindings != []
    ensures Distinct(Policy(s.policies, purpose).value.bindings) <==>
      forall path, n: nat :: ChainOf(s, purpose, path, n) ==> n < |Policy(s.policies, purpose).value.bindings|
  {
    var bindings := Policy(s.policies, purpose).value.bindings;
    if Distinct(bindings) {
      forall path, n: nat | ChainOf(s, purpose, path, n) ensures n < |bindings| {
        ChainPlaces(s, purpose, path, n);
      }
    } else {
      var i, j :| 0 <= i < j < |bindings| && bindings[i].provider == bindings[j].provider;
      var path := Circle(s, purpose, j, |bindings|);
      assert ChainOf(s, purpose, path, |bindings|);
    }
  }

  /** While the place of a provider is before a repeated one, there is always one more hop. */
  lemma {:induction false} Circle(s: PolicySet, purpose: Purpose, j: nat, n: nat) returns (path: seq<string>)
    requires Policy(s.policies, purpose).Some?
    requires
      var bindings := Policy(s.policies, purpose).value.bindings;
      0 < j < |bindings| && Place(bindings, bindings[j].provider) < j
    ensures ChainOf(s, purpose, path, n)
    ensures Place(Policy(s.policies, purpose).value.bindings, path[n]) < j
  {
    var bindings := Policy(s.policies, purpose).value.bindings;
    if n == 0 {
      path := [bindings[0].provider];
    } else {
      var shorter := Circle(s, purpose, j, n - 1);
      var next := OneMoreHop(s, purpose, j, shorter[n - 1]);
      path := shorter + [next];
      ChainGrows(s, purpose, shorter, n - 1, next);
      hide ChainOf, Policy, Place, Hop;
    }
  }

  lemma ChainGrows(s: PolicySet, purpose: Purpose, path: seq<string>, n: nat, next: string)
    requires ChainOf(s, purpose, path, n) && Hop(s, purpose, path[n], next)
    ensures ChainOf(s, purpose, path + [next], n + 1)
  {
    hide Hop, Policy, Place;
  }

  lemma OneMoreHop(s: PolicySet, purpose: Purpose, j: nat, from: string) returns (next: string)
    requires Policy(s.policies, purpose).Some?
    requires
      var bindings := Policy(s.policies, purpose).value.bindings;
      j < |bindings| && Place(bindings, bindings[j].provider) < j && Place(bindings, from) < j
    ensures Hop(s, purpose, from, next) && Place(Policy(s.policies, purpose).value.bindings, next) < j
  {
    var bindings := Policy(s.policies, purpose).value.bindings;
    var i := Place(bindings, from) + 1;
    next := bindings[i].provider;
    assert Place(bindings, next) <= i;
  }

  // ----- Validation -----

  predicate BindingOk(b: RouteBinding) {
    b.provider != "" && b.dialectID != "" && b.registryRevision != "" && HasCaps(b.startCapabilities, RequiredStart)
  }

  ghost predicate PolicyOk(p: RoutingPolicy) {
    && !p.purpose.UnknownPurpose? && p.bindings != [] && Distinct(p.bindings)
    && (forall b <- p.bindings :: BindingOk(b))
  }

  ghost predicate Valid(s: PolicySet) {
    && s.policies != []
    && (forall p <- s.policies :: PolicyOk(p))
    && (forall i, j :: 0 <= i < j < |s.policies| ==> s.policies[i].purpose != s.policies[j].purpose)
  }

  /** What makes a set dispatchable, binding by binding. */
  lemma ValidMeans(s: PolicySet)
    ensures Valid(s) <==>
      && s.policies != []
      && (forall i, j :: 0 <= i < j < |s.policies| ==> s.policies[i].purpose != s.policies[j].purpose)
      && (forall p <- s.policies :: !p.purpose.UnknownPurpose? && p.bindings != [])
      && (forall p <- s.policies :: forall i, j :: 0 <= i < j < |p.bindings| ==> p.bindings[i].provider != p.bindings[j].provider)
      && (forall p <- s.policies :: forall b <- p.bindings ::
          && b.provider != "" && b.dialectID != "" && b.registryRevision != ""
          && "session_id_on_start" in b.startCapabilities && "structured_output" in b.startCapabilities)
  {
    forall b: RouteBinding
      ensures BindingOk(b) <==> (
        && b.provider != "" && b.dialectID != "" && b.registryRevision != ""
        && "session_id_on_start" in b.startCapabilities && "structured_output" in b.startCapabilities)
    {
      assert "session_id_on_start" in RequiredStart && "structured_output" in RequiredStart;
    }
    hide BindingOk;
  }

  method Validate(s: PolicySet) returns (ok: bool)
    ensures ok <==> Valid(s)
  {
    if s.policies == [] {
      return false;
    }
    var seen: set<Purpose> := {};
    for i := 0 to |s.policies|
      invariant seen == set k | 0 <= k < i :: s.policies[k].purpose
      invariant forall k :: 0 <= k < i ==> PolicyOk(s.policies[k])
      invariant forall j, k :: 0 <= j < k < i ==> s.policies[j].purpose != s.policies[k].purpose
    {
      var p := s.policies[i];
      if p.purpose.UnknownPurpose? || p.bindings == [] {
        assert !PolicyOk(p);
        return false;
      }
      if p.purpose in seen {
        return false;
      }
      seen := seen + {p.purpose};
      var fine := ValidateBindings(p.bindings);
      if !fine {
        assert !PolicyOk(p);
        return false;
      }
    }
    return true;
  }

  method ValidateBindings(bindings: seq<RouteBinding>) returns (ok: bool)
    ensures ok <==> Distinct(bindings) && forall b <- bindings :: BindingOk(b)
  {
    var providers: set<string> := {};
    for i := 0 to |bindings|
      invariant providers == set k | 0 <= k < i :: bindings[k].provider
      invariant forall k :: 0 <= k < i ==> BindingOk(bindings[k])
      invariant forall j, k :: 0 <= j < k < i ==> bindings[j].provider != bindings[k].provider
    {
      var b := bindings[i];
      if b.provider == "" {
        assert !BindingOk(b);
        return false;
      }
      if b.provider in providers {
        return false;
      }
      providers := providers + {b.provider};
      if b.dialectID == "" || b.registryRevision == "" || !HasCaps(b.startCapabilities, RequiredStart) {
        assert !BindingOk(b);
        return false;
      }
    }
    return true;
  }

  // ----- Content and serialization -----

  function BlankBinding(b: RouteBinding): RouteBinding {
    b.(executablePath := "", executableSHA256 := "", cliVersion := "")
  }

  function BlankPolicy(p: RoutingPolicy): RoutingPolicy {
    p.(bindings := seq(|p.bindings|, i requires 0 <= i < |p.bindings| => BlankBinding(p.bindings[i])))
  }

  function Blank(s: PolicySet): PolicySet {
    s.(policies := seq(|s.policies|, i requires 0 <= i < |s.policies| => BlankPolicy(s.policies[i])))
  }

  /** The serialized body: the set under a schema version. */
  datatype Body = Body(schemaVersion: int, set_: PolicySet)

  datatype Codec = Codec(encode: Body -> seq<bv8>, decode: seq<bv8> -> Option<Body>)

  /** The codec loses nothing of this body. */
  ghost predicate Lossless(c: Codec, b: Body) {
    c.decode(c.encode(b)) == Some(b)
  }

  function Marshal(c: Codec, s: PolicySet): seq<bv8> {
    c.encode(Body(1, s))
  }

  method Parse(c: Codec, data: seq<bv8>) returns (s: Option<PolicySet>)
    ensures s.Some? <==> c.decode(data).Some? && c.decode(data).value.schemaVersion == 1 && Valid(c.decode(data).value.set_)
    ensures s.Some? ==> s.value == c.decode(data).value.set_
  {
    var body := c.decode(data);
    if body.None? || body.value.schemaVersion != 1 {
      return None;
    }
    var ok := Validate(body.value.set_);
    return if ok then Some(body.value.set_) else None;
  }

  /** A set survives marshal and parse exactly when it is valid. */
  method ParseMarshalled(c: Codec, s: PolicySet) returns (r: Option<PolicySet>)
    requires Lossless(c, Body(1, s))
    ensures r == if Valid(s) then Some(s) else None
  {
    r := Parse(c, Marshal(c, s));
  }

  function ContentEqual(c: Codec, a: PolicySet, b: PolicySet): bool {
    c.encode(Body(0, Blank(a))) == c.encode(Body(0, Blank(b)))
  }

  /** Two bindings approve the same, whatever executables were observed. */
  predicate SameBinding(a: RouteBinding, b: RouteBinding) {
    && a.provider == b.provider && a.model == b.model && a.budgetUSD == b.budgetUSD && a.timeoutSeconds == b.timeoutSeconds
    && a.promptHash == b.promptHash && a.disclosure == b.disclosure
    && a.dialectID == b.dialectID && a.registryRevision == b.registryRevision
    && a.startCapabilities == b.startCapabilities && a.resumeCapabilities == b.resumeCapabilities
  }

  ghost predicate SameContent(a: PolicySet, b: PolicySet) {
    && a.configModel == b.configModel && a.configFallbacks == b.configFallbacks && |a.policies| == |b.policies|
    && forall i :: 0 <= i < |a.policies| ==> SamePolicy(a.policies[i], b.policies[i])
  }

  ghost predicate SamePolicy(a: RoutingPolicy, b: RoutingPolicy) {
    && a.purpose == b.purpose && |a.bindings| == |b.bindings|
    && forall j :: 0 <= j < |a.bindings| ==> SameBinding(a.bindings[j], b.bindings[j])
  }

  lemma BlankPolicyIff(a: RoutingPolicy, b: RoutingPolicy)
    ensures BlankPolicy(a) == BlankPolicy(b) <==> SamePolicy(a, b)
  {
    var p, q := BlankPolicy(a).bindings, BlankPolicy(b).bindings;
    assert forall j :: 0 <= j < |p| ==> p[j] == BlankBinding(a.bindings[j]);
    assert forall j :: 0 <= j < |q| ==> q[j] == BlankBinding(b.bindings[j]);
    if SamePolicy(a, b) {
      assert p == q;
    }
    if p == q {
      forall j | 0 <= j < |p| ensures SameBinding(a.bindings[j], b.bindings[j]) {
        assert p[j] == q[j];
      }
    }
  }

  lemma BlankIff(a: PolicySet, b: PolicySet)
    ensures Blank(a) == Blank(b) <==> SameContent(a, b)
  {
    hide BlankPolicy, SamePolicy;
    var p, q := Blank(a).policies, Blank(b).policies;
    assert forall i :: 0 <= i < |p| ==> p[i] == BlankPolicy(a.policies[i]);
    assert forall i :: 0 <= i < |q| ==> q[i] == BlankPolicy(b.policies[i]);
    forall i | 0 <= i < |p| && i < |q| ensures p[i] == q[i] <==> SamePolicy(a.policies[i], b.policies[i]) {
      BlankPolicyIff(a.policies[i], b.policies[i]);
    }
    if SameContent(a, b) {
      assert p == q;
    }
  }

  /** Equal content is agreement on everything approved; only the executable pins may differ. */
  lemma ContentEqualIff(c: Codec, a: PolicySet, b: PolicySet)
    requires Lossless(c, Body(0, Blank(a))) && Lossless(c, Body(0, Blank(b)))
    ensures ContentEqual(c, a, b) <==> Blank(a) == Blank(b)
    ensures ContentEqual(c, a, b) <==> SameContent(a, b)
  {
    assert c.decode(c.encode(Body(0, Blank(a)))) == Some(Body(0, Blank(a)));
    assert c.decode(c.encode(Body(0, Blank(b)))) == Some(Body(0, Blank(b)));
    BlankIff(a, b);
    hide Blank, SameContent;
  }

  // ----- Compare-and-swap of installations -----

  predicate Compares(inst: Installation, b: RouteBinding, resume: bool) {
    && inst.supported
    && (if resume then HasCaps(b.resumeCapabilities, RequiredResume) else HasCaps(b.startCapabilities, RequiredStart))
    && (b.executablePath != "" ==> inst.executablePath == b.executablePath)
    && (b.executableSHA256 != "" ==> inst.executableSHA256 == b.executableSHA256)
    && (b.cliVersion != "" ==> inst.cliVersion == b.cliVersion)
    && inst.dialectID == b.dialectID
    && inst.registryRevision == b.registryRevision
  }

  /** A binding pinned to an installation, every pin observed. */
  predicate PinnedTo(b: RouteBinding, inst: Installation) {
    && b.executablePath == inst.executablePath != "" && b.executableSHA256 == inst.executableSHA256 != ""
    && b.cliVersion == inst.cliVersion != "" && b.dialectID == inst.dialectID && b.registryRevision == inst.registryRevision
  }

  /** Any drift is caught: a binding pinned to a supported installation compares with that one and no other. */
  lemma AnyDriftIsCaught(b: RouteBinding, inst: Installation, later: Installation, resume: bool)
    requires PinnedTo(b, inst) && inst.supported
    requires
      var have, structured := if resume then b.resumeCapabilities else b.startCapabilities, "structured_output";
      structured in have && (if resume then "resume_by_session_id" else "session_id_on_start") in have
    ensures Compares(later, b, resume) <==> later == inst
  {
  }

  /** Without its operation's capabilities a binding compares with nothing. */
  lemma CapabilitiesAreProven(b: RouteBinding, inst: Installation, resume: bool)
    requires Compares(inst, b, resume)
    ensures inst.supported && inst.dialectID == b.dialectID && inst.registryRevision == b.registryRevision
    ensures !resume ==> "session_id_on_start" in b.startCapabilities && "structured_output" in b.startCapabilities
    ensures resume ==> "resume_by_session_id" in b.resumeCapabilities && "structured_output" in b.resumeCapabilities
    ensures (b.executablePath != "" ==> inst.executablePath == b.executablePath)
         && (b.executableSHA256 != "" ==> inst.executableSHA256 == b.executableSHA256)
         && (b.cliVersion != "" ==> inst.cliVersion == b.cliVersion)
  {
    assert "session_id_on_start" in RequiredStart && "structured_output" in RequiredStart;
    assert "resume_by_session_id" in RequiredResume && "structured_output" in RequiredResume;
  }

  /** What probing a provider for the n-th time overall returns; None without an adapter or on error. */
  type Probe = (string, nat) -> Option<Installation>

  predicate Agrees(cache: map<string, Installation>, b: RouteBinding) {
    b.provider in cache && Compares(cache[b.provider], b, false)
  }

  /** Every binding of the first k policies agrees with the one cached installation of its provider. */
  ghost predicate Verified(cache: map<string, Installation>, s: PolicySet, k: nat) {
    forall i, b :: 0 <= i < k <= |s.policies| && b in s.policies[i].bindings ==> Agrees(cache, b)
  }

  /** Whenever it is probed, the provider of every listed binding answers with an installation that agrees. */
  ghost predicate Healthy(bindings: seq<RouteBinding>, adapters: set<string>, probe: Probe) {
    forall b, n: nat :: b in bindings ==> b.provider in adapters && Answers(probe, b, n)
  }

  predicate Answers(probe: Probe, b: RouteBinding, n: nat) {
    probe(b.provider, n).Some? && Compares(probe(b.provider, n).value, b, false)
  }

  /** Every cached installation is an answer the provider gave. */
  ghost predicate FromProbes(cache: map<string, Installation>, probe: Probe) {
    forall p <- cache :: Given(probe, p, cache[p])
  }

  ghost predicate Given(probe: Probe, p: string, inst: Installation) {
    exists n: nat :: probe(p, n) == Some(inst)
  }

  lemma HealthyAgrees(bindings: seq<RouteBinding>, adapters: set<string>, probe: Probe, b: RouteBinding, inst: Installation)
    requires Healthy(bindings, adapters, probe) && b in bindings && Given(probe, b.provider, inst)
    ensures Compares(inst, b, false)
  {
    var n: nat :| probe(b.provider, n) == Some(inst);
    assert Answers(probe, b, n);
  }

  class BindingVerifier {
    var routing: Option<PolicySet>
    var cache: map<string, Installation>
    var probed: seq<string>
    const adapters: set<string>
    const probe: Probe

    constructor (routing: Option<PolicySet>, adapters: set<string>, probe: Probe)
      ensures this.routing == routing && this.cache == map[] && this.probed == []
      ensures this.adapters == adapters && this.probe == probe
    {
      this.routing, this.cache, this.probed := routing, map[], [];
      this.adapters, this.probe := adapters, probe;
    }

    /** The cached installation, or a fresh probe. */
    method Detect(name: string) returns (inst: Option<Installation>)
      modifies this`probed
      ensures name in cache ==> inst == Some(cache[name]) && probed == old(probed)
      ensures name !in cache && name !in adapters ==> inst.None? && probed == old(probed)
      ensures name !in cache && name in adapters ==>
        inst == probe(name, |old(probed)|) && probed == old(probed) + [name]
    {
      if name in cache {
        return Some(cache[name]);
      }
      if name !in adapters {
        return None;
      }
      inst := probe(name, |probed|);
      probed := probed + [name];
    }

    /** Each cached provider was probed once, and nothing else was. */
    ghost predicate ProbedOnce()
      reads this
    {
      && (forall p :: p in probed <==> p in cache)
      && (forall i, j :: 0 <= i < j < |probed| ==> probed[i] != probed[j])
    }

    /**
    From an empty cache a successful pre-pass leaves every binding verified against one
    installation per provider, each probed exactly once.
    */
    method VerifyBindings() returns (ok: bool)
      requires cache == map[] && probed == []
      modifies this`cache, this`probed
      ensures ok && routing.Some? ==> Verified(cache, routing.value, |routing.value.policies|) && ProbedOnce()
      ensures ok && routing.Some? ==> forall p :: p in cache <==> Referenced(routing.value, |routing.value.policies|, p)
      ensures routing.None? ==> ok && cache == map[] && probed == []
      ensures routing.Some? && (forall p <- routing.value.policies :: Healthy(p.bindings, adapters, probe)) ==> ok
    {
      if routing.None? {
        return true;
      }
      hide Compares, Carries, Referenced, Healthy, Given;
      var s := routing.value;
      ReferencedNone(s);
      for i := 0 to |s.policies|
        invariant Verified(cache, s, i) && ProbedOnce() && FromProbes(cache, probe)
        invariant forall p :: p in cache <==> Referenced(s, i, p)
      {
        ghost var was := cache;
        var fine := VerifyPolicy(s.policies[i].bindings);
        if !fine {
          return false;
        }
        forall k, b | 0 <= k < i + 1 && b in s.policies[k].bindings ensures Agrees(cache, b) {
          assert k < i ==> Agrees(was, b);
        }
        ReferencedNext(s, i);
      }
      return true;
    }

    method VerifyPolicy(bindings: seq<RouteBinding>) returns (ok: bool)
      requires ProbedOnce() && FromProbes(cache, probe)
      modifies this`cache, this`probed
      ensures FromProbes(cache, probe)
      ensures Healthy(bindings, adapters, probe) ==> ok
      ensures forall p <- old(cache) :: p in cache && cache[p] == old(cache)[p]
      ensures ok ==> ProbedOnce() && forall b <- bindings :: Agrees(cache, b)
      ensures ok ==> forall p :: p in cache <==> p in old(cache) || Carries(bindings, p)
    {
      hide Compares, Carries, Given;
      for j := 0 to |bindings|
        invariant ProbedOnce() && FromProbes(cache, probe)
        invariant forall p <- old(cache) :: p in cache && cache[p] == old(cache)[p]
        invariant forall k :: 0 <= k < j ==> Agrees(cache, bindings[k])
        invariant forall p <- cache :: p in old(cache) || Carries(bindings, p)
      {
        var b := bindings[j];
        ghost var n := |probed|;
        var inst := Detect(b.provider);
        Probed(b, n, inst, bindings);
        if inst.None? || !Compares(inst.value, b, false) {
          return false;
        }
        cache := cache[b.provider := inst.value];
        CarriesOwn(bindings, j);
      }
      CarriedIsListed(bindings);
      return true;
    }

    /** What Detect returned was given by the provider, and agrees when the bindings are healthy. */
    lemma Probed(b: RouteBinding, n: nat, inst: Option<Installation>, bindings: seq<RouteBinding>)
      requires b in bindings && FromProbes(cache, probe)
      requires b.provider in cache ==> inst == Some(cache[b.provider])
      requires b.provider !in cache && b.provider !in adapters ==> inst.None?
      requires b.provider !in cache && b.provider in adapters ==> inst == probe(b.provider, n)
      ensures inst.Some? ==> Given(probe, b.provider, inst.value)
      ensures Healthy(bindings, adapters, probe) ==> inst.Some? && Compares(inst.value, b, false)
    {
      if Healthy(bindings, adapters, probe) {
        assert Answers(probe, b, n);
        HealthyAgrees(bindings, adapters, probe, b, inst.value);
      }
    }

    /** An approved operation after a successful pre-pass: the same installation, no new probe. */
    method ResolveProvider(selectable: bool, purpose: Purpose, name: string, resume: bool) returns (ok: bool)
      requires routing.Some? && Verified(cache, routing.value, |routing.value.policies|)
      modifies this`probed
      ensures probed == old(probed)
      ensures Resolve(routing.value, purpose, name).Some? ==> name in cache
      ensures ok <==> (
        && selectable && name in adapters && Resolve(routing.value, purpose, name).Some?
        && Compares(cache[name], Resolve(routing.value, purpose, name).value, resume))
      ensures !resume ==> (ok <==> selectable && name in adapters && Resolve(routing.value, purpose, name).Some?)
    {
      var b := Resolve(routing.value, purpose, name);
      if b.Some? {
        ResolvedIsBound(routing.value, purpose, name);
        assert Agrees(cache, b.value);
      }
      if !selectable || b.None? || name !in adapters {
        return false;
      }
      var inst := Detect(name);
      return inst.Some? && Compares(inst.value, b.value, resume);
    }
  }

  ghost predicate Carries(bindings: seq<RouteBinding>, p: string) {
    exists b <- bindings :: b.provider == p
  }

  lemma CarriesOwn(bindings: seq<RouteBinding>, j: nat)
    requires j < |bindings|
    ensures Carries(bindings, bindings[j].provider)
  {
  }

  lemma CarriedIsListed(bindings: seq<RouteBinding>)
    ensures forall p :: Carries(bindings, p) ==> exists k :: 0 <= k < |bindings| && bindings[k].provider == p
  {
  }

  /** One of the first k policies binds the provider. */
  ghost predicate Referenced(s: PolicySet, k: nat, p: string) {
    exists i :: 0 <= i < k <= |s.policies| && Carries(s.policies[i].bindings, p)
  }

  lemma ReferencedNone(s: PolicySet)
    ensures forall p :: !Referenced(s, 0, p)
  {
  }

  lemma ReferencedNext(s: PolicySet, k: nat)
    requires k < |s.policies|
    ensures forall p :: Referenced(s, k + 1, p) <==> Referenced(s, k, p) || Carries(s.policies[k].bindings, p)
  {
    forall p | Referenced(s, k + 1, p) ensures Referenced(s, k, p) || Carries(s.policies[k].bindings, p) {
      var i :| 0 <= i < k + 1 && Carries(s.policies[i].bindings, p);
    }
  }

  lemma PolicyIsListed(policies: seq<RoutingPolicy>, purpose: Purpose)
    requires Policy(policies, purpose).Some?
    ensures Policy(policies, purpose).value in policies
  {
  }

  lemma ResolvedIsBound(s: PolicySet, purpose: Purpose, name: string)
    requires Resolve(s, purpose, name).Some?
    ensures exists i :: 0 <= i < |s.policies| && Resolve(s, purpose, name).value in s.policies[i].bindings
    ensures Resolve(s, purpose, name).value.provider == name
  {
    PolicyIsListed(s.policies, purpose);
    var pol := Policy(s.policies, purpose).value;
    var i :| 0 <= i < |s.policies| && s.policies[i] == pol;
  }
}
