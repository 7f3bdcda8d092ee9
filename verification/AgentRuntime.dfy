/**
The agent runtime: hydration, the drain that turns one adapter stream into a settled run, and
the resume fallback. Streams, cancellation, redaction and evidence writes are whatever the
adapter and the host make of them; `Host` answers for the host, one answer per call.
*/
module AgentRuntime {
  import opened Basics
  import opened Ledger
  import P = Protocol
  import R = SessionRuns

  /** What the routing policy offers a session that cannot be resumed. */
  datatype Fallback = NoPolicy | NoneApproved | Approved(provider: string)

  /** How far a Resume gets before the adapter runs it. */
  datatype ResumeGate = RouteRefused | NoResumeCapability | ProviderUnresolved | AdapterFault | Unrecoverable | Streaming

  /** What one call of the adapter's Next returns; past the end of the stream it returns EOF. */
  datatype Kind = Frame | ProtocolFault | ProcessCrash | OtherError
  datatype Item = Item(kind: Kind, event: P.Event, exitCode: int)

  /** A Start allocates a session, a Resume re-affirms the one of record `rec`. */
  datatype Config =
    | Start(id: string, purpose: Purpose, provider: string, supersedes: string)
    | Resume(rec: nat, bound: string)
  {
    function Bound(): string { if Start? then "" else bound }
  }

  /**
  `cancelled(k)` is the answer of the k-th cancellation check, `contextDone(k)` whether the
  context is done while item k is handled, `redacted(k)` the redacted message of event k,
  `unwritten(k)` whether appending it fails.
  */
  datatype Host = Host(
    evidence: bool,
    cancelled: nat -> bool,
    redacted: nat -> Option<string>,
    unwritten: nat -> bool,
    contextDone: nat -> bool,
    crashUnredacted: bool,
    violationUnwritten: bool,
    manifestUnwritten: bool)

  datatype RunStatus = RunSucceeded | RunCancelled | RunFailed

  datatype Outcome =
    | Run(status: RunStatus, events: seq<P.Event>, terminal: Option<P.Event>, exitCode: int, session: Option<Session>)
    | Fault

  function RunStatusOf(st: Status): RunStatus {
    if st == Completed then RunSucceeded else if st == Cancelled then RunCancelled else RunFailed
  }

  function Events(stream: seq<Item>, k: nat): seq<P.Event>
    requires k <= |stream|
  {
    seq(k, j requires 0 <= j < k => stream[j].event)
  }

  /** The event as returned: numbered from one, its text redacted, every protocol fact unchanged. */
  function Returned(stream: seq<Item>, h: Host, j: nat): P.Event
    requires j < |stream| && h.redacted(j).Some?
  {
    stream[j].event.(seqNo := j + 1, message := h.redacted(j).value)
  }

  // ----- When a run succeeds, said of the inputs alone -----

  /** The first k items went through the pipeline without incident. */
  ghost predicate Clean(l: Ledger, cfg: Config, stream: seq<Item>, h: Host, k: nat) {
    && k <= |stream|
    && (forall j :: 0 <= j < k ==> stream[j].kind.Frame? && !h.cancelled(j) && h.redacted(j).Some?)
    && (h.evidence ==> forall j :: 0 <= j < k ==> !h.unwritten(j))
    && P.WellFormed(cfg.Bound(), Events(stream, k))
    && (k > 0 && cfg.Start? ==> !h.contextDone(0) && stream[0].event.session !in l.byProvider)
  }

  ghost predicate Succeeds(l: Ledger, cfg: Config, stream: seq<Item>, h: Host) {
    var n := |stream|;
    && Clean(l, cfg, stream, h, n)
    && n > 0 && stream[n - 1].event.typ == P.Completed
    && !h.cancelled(n) && !h.cancelled(n + 1)
    && (h.evidence ==> !h.manifestUnwritten)
  }

  lemma CleanPrefix(l: Ledger, cfg: Config, stream: seq<Item>, h: Host, j: nat, k: nat)
    requires Clean(l, cfg, stream, h, k) && j <= k
    ensures Clean(l, cfg, stream, h, j)
  {
    P.WellFormedPrefix(cfg.Bound(), Events(stream, k), j);
    assert Events(stream, k)[..j] == Events(stream, j);
  }

  // ----- What a drain leaves in the ledger -----

  function Position(l: Ledger, cfg: Config): nat {
    if cfg.Start? then |l.records| else cfg.rec
  }

  /** The ledger once the start event has claimed `pid`, with the record at `st`. */
  function Claimed(l: Ledger, cfg: Config, pid: string, st: Status): Ledger
    requires cfg.Resume? ==> cfg.rec < |l.records|
  {
    WithStatus(if cfg.Start? then Insert(l, Session(cfg.id, pid, cfg.purpose, Active, cfg.supersedes, cfg.provider)) else l,
               Position(l, cfg), st)
  }

  // ----- How a drain ends, said of the inputs alone -----

  /** The drain stops after k clean items: at the end of the stream or at an item that is not clean. */
  ghost predicate Stops(l: Ledger, cfg: Config, stream: seq<Item>, h: Host, k: nat) {
    Clean(l, cfg, stream, h, k) && (k < |stream| ==> !Clean(l, cfg, stream, h, k + 1))
  }

  /** A cancellation is seen where the drain stops; past the end there are two checks. */
  predicate CancelledAt(stream: seq<Item>, h: Host, k: nat) {
    h.cancelled(k) || (k == |stream| && h.cancelled(k + 1))
  }

  /** The start event was accepted and has a session. */
  ghost predicate Opened(l: Ledger, cfg: Config, stream: seq<Item>, h: Host, k: nat) {
    k > 0 || (
      && stream != [] && stream[0].kind.Frame? && !h.cancelled(0) && P.WellFormed(cfg.Bound(), Events(stream, 1))
      && (cfg.Start? ==> !h.contextDone(0) && stream[0].event.session !in l.byProvider))
  }

  /**
  The item that stops an uncancelled drain fails the session: a crash whose message can be
  redacted, an event that cannot, or a violation, found by the adapter or by the protocol,
  while the context is alive and the violation can be written.
  */
  ghost predicate Fails(cfg: Config, stream: seq<Item>, h: Host, k: nat)
    requires k < |stream|
  {
    match stream[k].kind
    case ProcessCrash => !h.crashUnredacted
    case OtherError => false
    case ProtocolFault => !h.contextDone(k) && !h.violationUnwritten
    case Frame =>
      if P.WellFormed(cfg.Bound(), Events(stream, k + 1)) then h.redacted(k).None?
      else !h.contextDone(k) && !h.violationUnwritten
  }

  /** The status of an opened session: without a terminal event the end of the stream is a failure. */
  ghost function EndStatus(cfg: Config, stream: seq<Item>, h: Host, k: nat): Status
    requires k <= |stream|
  {
    if CancelledAt(stream, h, k) then Cancelled
    else if k < |stream| then (if Fails(cfg, stream, h, k) then Failed else Active)
    else if k > 0 && stream[k - 1].event.typ == P.Completed then Completed
    else Failed
  }

  /** The ledger in the end; without an evidence root an opened session stays active. */
  ghost function Left(l: Ledger, cfg: Config, stream: seq<Item>, h: Host, k: nat): Ledger
    requires k <= |stream| && (cfg.Resume? ==> cfg.rec < |l.records|)
  {
    if !Opened(l, cfg, stream, h, k) then l
    else Claimed(l, cfg, stream[0].event.session, if h.evidence then EndStatus(cfg, stream, h, k) else Active)
  }

  /** A result is returned for a cancellation or a terminal event, unless its manifest cannot be written. */
  ghost predicate RunsOut(l: Ledger, cfg: Config, stream: seq<Item>, h: Host, k: nat)
    requires k <= |stream|
  {
    && (CancelledAt(stream, h, k) || (k == |stream| && k > 0 && P.Terminal(stream[k - 1].event)))
    && !(Opened(l, cfg, stream, h, k) && h.evidence && h.manifestUnwritten)
  }

  ghost predicate Ends(l: Ledger, cfg: Config, stream: seq<Item>, h: Host, k: nat, out: Outcome, m: Ledger)
    requires cfg.Resume? ==> cfg.rec < |l.records|
  {
    && Stops(l, cfg, stream, h, k) && m == Left(l, cfg, stream, h, k)
    && (out.Run? <==> RunsOut(l, cfg, stream, h, k))
    && (out.Run? ==> out.status == RunStatusOf(EndStatus(cfg, stream, h, k)) && Reports(l, cfg, stream, h, k, out.events, out.terminal))
  }

  /** Where a drain stops is determined, and so is everything it leaves. */
  lemma StopsOnce(l: Ledger, cfg: Config, stream: seq<Item>, h: Host, j: nat, k: nat)
    requires Stops(l, cfg, stream, h, j) && Stops(l, cfg, stream, h, k)
    ensures j == k
  {
    if j < k {
      CleanPrefix(l, cfg, stream, h, j + 1, k);
    } else if k < j {
      CleanPrefix(l, cfg, stream, h, k + 1, j);
    }
  }

  class Runtime {
    var ledger: Ledger

    constructor ()
      ensures ledger == Empty && Consistent(ledger)
    {
      ledger := Empty;
    }

    /**
    Succeeds exactly on hydratable facts and then holds them all. A refused fact stops the
    load: the facts before it stay, and the ledger is consistent all the same.
    */
    method Hydrate(facts: seq<Session>, gen: nat -> string) returns (ok: bool)
      requires Consistent(ledger)
      modifies this
      ensures Consistent(ledger)
      ensures ok <==> Hydratable(old(ledger), Named(facts, gen))
      ensures ok ==> Loaded(old(ledger), Named(facts, gen), ledger)
      ensures !ok ==> exists k | 0 <= k < |facts| ::
        Loaded(old(ledger), Named(facts, gen)[..k], ledger) && !Hydratable(old(ledger), Named(facts, gen)[..k + 1])
    {
      hide Consistent, Loaded, Hydratable;
      ghost var named := Named(facts, gen);
      ghost var l := ledger;
      var k := 0;
      NothingLoaded(l, named);
      while k < |facts|
        invariant 0 <= k <= |facts|
        invariant Hydratable(l, named[..k])
        invariant Consistent(ledger) && Loaded(l, named[..k], ledger)
      {
        var f := facts[k];
        if f.purpose.UnknownPurpose? || f.status.UnknownStatus? {
          RefusedFact(l, named, k, ledger);
          return false;
        }
        var rec := if f.id == "" then f.(id := gen(k)) else f;
        assert rec == named[k];
        if rec.id in ledger.byCFlow || (rec.pid != "" && rec.pid in ledger.byProvider) {
          RefusedFact(l, named, k, ledger);
          return false;
        }
        AcceptedFact(l, named, k, ledger);
        ledger := Insert(ledger, rec);
        k := k + 1;
      }
      assert named[..k] == named;
      return true;
    }

    /** Creates the session a validated start event claims, unless the claim is already bound. */
    method Establish(cfg: Config, claimed: string, contextDone: bool) returns (rec: Option<nat>)
      requires cfg.Start? && claimed != ""
      modifies this
      ensures rec.Some? <==> !contextDone && claimed !in old(ledger).byProvider
      ensures rec.None? ==> ledger == old(ledger)
      ensures rec.Some? ==> rec.value == Position(old(ledger), cfg) < |ledger.records| && ledger == Claimed(old(ledger), cfg, claimed, Active)
      ensures old(Consistent(ledger)) && rec.Some? ==> (Consistent(ledger) <==> Unbound(old(ledger), cfg.id))
    {
      if contextDone || claimed in ledger.byProvider {
        return None;
      }
      ghost var s := Session(cfg.id, claimed, cfg.purpose, Active, cfg.supersedes, cfg.provider);
      if Consistent(ledger) {
        InsertConsistentIffUnbound(ledger, s);
      }
      var i := |ledger.records|;
      var fresh_ := Session(cfg.id, claimed, cfg.purpose, Active, cfg.supersedes, cfg.provider);
      ledger := Insert(ledger, fresh_);
      assert ledger.records[i := ledger.records[i].(status := Active)] == ledger.records;
      return Some(i);
    }

    /** The start event attaches the run to its record, established now or already bound, and activates it. */
    method OpenSession(cfg: Config, claimed: string, contextDone: bool) returns (rec: Option<nat>)
      requires claimed != "" && (cfg.Resume? ==> cfg.rec < |ledger.records|)
      modifies this
      ensures rec.None? <==> cfg.Start? && (contextDone || claimed in old(ledger).byProvider)
      ensures rec.None? ==> ledger == old(ledger)
      ensures rec.Some? ==> rec.value == Position(old(ledger), cfg) && ledger == Claimed(old(ledger), cfg, claimed, Active)
    {
      if cfg.Resume? {
        rec := Some(cfg.rec);
      } else {
        rec := Establish(cfg, claimed, contextDone);
        if rec.None? {
          return;
        }
      }
      ledger := WithStatus(ledger, rec.value, Active);
    }

    /** Records the final status; without an evidence root the record is left as it is. */
    method SettleWith(session: Option<nat>, st: Status, exit: int, events: seq<P.Event>, terminal: Option<P.Event>, h: Host)
      returns (out: Outcome)
      requires session.Some? ==> session.value < |ledger.records|
      modifies this
      ensures ledger == if session.Some? && h.evidence then WithStatus(old(ledger), session.value, st) else old(ledger)
      ensures out.Fault? <==> session.Some? && h.evidence && h.manifestUnwritten
      ensures out.Run? ==> out.status == RunStatusOf(st) && out.events == events && out.terminal == terminal && out.exitCode == exit
      ensures out.Run? ==> out.session == if session.Some? && h.evidence then Some(ledger.records[session.value]) else None
    {
      if session.None? || !h.evidence {
        return Run(RunStatusOf(st), events, terminal, exit, None);
      }
      ledger := WithStatus(ledger, session.value, st);
      if h.manifestUnwritten {
        return Fault;
      }
      return Run(RunStatusOf(st), events, terminal, exit, Some(ledger.records[session.value]));
    }

    /**
    A run succeeds exactly when its stream is a start event, body events and one usable
    completion, then EOF, undisturbed; exit codes play no part. What it returns are the
    accepted events in order, numbered from one. The ledger it leaves, after a result as after
    a fault, is the one the inputs determine.
    */
    method Drain(cfg: Config, stream: seq<Item>, h: Host) returns (out: Outcome, ghost stop: nat)
      requires cfg.Resume? ==>
        cfg.rec < |ledger.records| && cfg.bound != "" && ledger.records[cfg.rec].pid == cfg.bound
      modifies this
      ensures Ends(old(ledger), cfg, stream, h, stop, out, ledger)
      ensures out.Run? && out.status == RunSucceeded <==> Succeeds(old(ledger), cfg, stream, h)
      ensures out.Run? ==> Reports(old(ledger), cfg, stream, h, |out.events|, out.events, out.terminal)
      ensures out.Run? && out.status != RunCancelled ==> |out.events| == |stream| && out.terminal.Some?
      ensures out.Run? && out.status == RunFailed ==> out.terminal.Some? && out.terminal.value.typ == P.Failed
      ensures out.Run? && out.status == RunCancelled ==>
        h.cancelled(|out.events|) || (|out.events| == |stream| && h.cancelled(|stream| + 1))
      ensures Drained(old(ledger), cfg, stream, ledger)
      ensures h.evidence && out.Run? && out.events != [] ==> DrainedTo(old(ledger), cfg, stream, ledger, StatusOf(out))
    {
      hide *;
      out, stop := Pump(cfg, stream, h);
      EndsMean(old(ledger), cfg, stream, h, stop, out, ledger);
    }

    /** The loop over the stream. */
    method Pump(cfg: Config, stream: seq<Item>, h: Host) returns (out: Outcome, ghost stop: nat)
      requires cfg.Resume? ==>
        cfg.rec < |ledger.records| && cfg.bound != "" && ledger.records[cfg.rec].pid == cfg.bound
      modifies this
      ensures Ends(old(ledger), cfg, stream, h, stop, out, ledger)
    {
      hide Clean, Reports, Attached, DrainedTo, Claimed, P.WellFormed, WithStatus, P.ProtocolSequence.Valid, Ends;
      var automaton := new P.ProtocolSequence(cfg.Bound());
      var events, terminal, session: Option<nat> := [], None, None;
      var k := 0;
      ghost var l := ledger;
      NothingRead(l, cfg, stream, h);
      while k < |stream|
        invariant 0 <= k <= |stream|
        invariant automaton.Valid() && automaton.seqNo == k && automaton.bound == cfg.Bound() && automaton.accepted == Events(stream, k)
        invariant Reports(l, cfg, stream, h, k, events, terminal) && Attached(l, cfg, stream, k, session, ledger)
      {
        stop := k;
        AttachedRecord(l, cfg, stream, k, session, ledger);
        NextClean(l, cfg, stream, h, k, events, terminal);
        ghost var now := ledger;
        if h.cancelled(k) {
          out := SettleWith(session, Cancelled, 0, events, terminal, h);
          RunEnds(l, cfg, stream, h, k, events, terminal, session, now, out, ledger);
          return;
        }
        var item := stream[k];
        if !item.kind.Frame? {
          out := StreamError(item, session, events, terminal, h, h.contextDone(k));
          FaultEnds(l, cfg, stream, h, k, events, terminal, k, session, now, ledger);
          return;
        }
        var verdict, ev := automaton.Accept(item.event);
        assert Events(stream, k) + [item.event] == Events(stream, k + 1);
        if !verdict.Accepted? {
          out := FailProtocol(session, events, terminal, h, h.contextDone(k));
          FaultEnds(l, cfg, stream, h, k, events, terminal, k, session, now, ledger);
          return;
        }
        StartIsFirst(cfg.Bound(), stream, k);
        if ev.typ == P.SessionStarted {
          session := OpenSession(cfg, ev.session, h.contextDone(k));
          if session.None? {
            FaultEnds(l, cfg, stream, h, k, events, terminal, 0, None, now, ledger);
            return Fault, k;
          }
        }
        Attach(l, cfg, stream, k, session, now, ledger);
        AttachedRecord(l, cfg, stream, k + 1, session, ledger);
        now := ledger;
        if h.redacted(k).None? {
          out := SettleWith(session, Failed, 0, events, terminal, h);
          FaultEnds(l, cfg, stream, h, k, events, terminal, k + 1, session, now, ledger);
          return Fault, k;
        }
        var redacted := ev.(message := h.redacted(k).value);
        assert redacted == Returned(stream, h, k);
        if session.Some? && h.evidence && h.unwritten(k) {
          StaysActive(l, cfg, stream, k + 1, session, now);
          FaultEnds(l, cfg, stream, h, k, events, terminal, k + 1, session, now, ledger);
          return Fault, k;
        }
        events := events + [redacted];
        if redacted.typ == P.Completed || redacted.typ == P.Failed {
          terminal := Some(redacted);
        }
        assert Clean(l, cfg, stream, h, k + 1);
        k := k + 1;
      }
      out := Conclude(cfg, stream, h, events, terminal, session, l);
      stop := |stream|;
    }

    /** The stream ended: the outcome follows from the protocol facts alone. */
    method Conclude(cfg: Config, ghost stream: seq<Item>, h: Host, events: seq<P.Event>, terminal: Option<P.Event>,
                    session: Option<nat>, ghost l: Ledger) returns (out: Outcome)
      requires cfg.Resume? ==> cfg.rec < |l.records|
      requires Reports(l, cfg, stream, h, |stream|, events, terminal) && Attached(l, cfg, stream, |stream|, session, ledger)
      modifies this
      ensures Ends(l, cfg, stream, h, |stream|, out, ledger)
    {
      hide Clean, Attached, DrainedTo, Claimed, P.WellFormed, WithStatus, Ends;
      AttachedRecord(l, cfg, stream, |stream|, session, ledger);
      AtTheEnd(l, cfg, stream, h, events, terminal);
      ghost var now, n := ledger, |stream|;
      if h.cancelled(|events|) || h.cancelled(|events| + 1) {
        out := SettleWith(session, Cancelled, 0, events, terminal, h);
        RunEnds(l, cfg, stream, h, n, events, terminal, session, now, out, ledger);
        return;
      }
      if terminal.None? {
        out := SettleWith(session, Failed, 0, events, terminal, h);
        FaultEnds(l, cfg, stream, h, n, events, terminal, n, session, now, ledger);
        return Fault;
      }
      var status := if terminal.value.typ == P.Failed then Failed else Completed;
      out := SettleWith(session, status, 0, events, terminal, h);
      RunEnds(l, cfg, stream, h, n, events, terminal, session, now, out, ledger);
    }

    /** A protocol violation found by the adapter, a crash, or any other error of Next. */
    method StreamError(item: Item, session: Option<nat>, events: seq<P.Event>, terminal: Option<P.Event>, h: Host, contextDone: bool)
      returns (out: Outcome)
      requires !item.kind.Frame?
      requires session.Some? ==> session.value < |ledger.records|
      modifies this
      ensures out.Fault?
      ensures ledger ==
        if session.Some? && h.evidence && (
          || (item.kind.ProtocolFault? && !contextDone && !h.violationUnwritten)
          || (item.kind.ProcessCrash? && !h.crashUnredacted))
        then WithStatus(old(ledger), session.value, Failed)
        else old(ledger)
    {
      if item.kind.ProtocolFault? {
        out := FailProtocol(session, events, terminal, h, contextDone);
      } else if item.kind.ProcessCrash? && !h.crashUnredacted {
        out := SettleWith(session, Failed, item.exitCode, events, terminal, h);
      }
      return Fault;
    }

    method FailProtocol(session: Option<nat>, events: seq<P.Event>, terminal: Option<P.Event>, h: Host, contextDone: bool)
      returns (out: Outcome)
      requires session.Some? ==> session.value < |ledger.records|
      modifies this
      ensures out.Fault?
      ensures ledger ==
        if session.Some? && h.evidence && !contextDone && !h.violationUnwritten then WithStatus(old(ledger), session.value, Failed)
        else old(ledger)
    {
      if !contextDone && !(h.evidence && h.violationUnwritten) {
        out := SettleWith(session, Failed, 0, events, terminal, h);
      }
      return Fault;
    }

    /**
    The original becomes LOST and gets one successor on the approved provider. Without an
    approved fallback nothing changes.
    */
    method ResumeFallback(rec: nat, requested: string, fallback: Fallback, unbundled: bool, unproven: bool, id: string)
      returns (successor: Option<Session>)
      requires rec < |ledger.records|
      modifies this
      ensures successor.Some? <==> !fallback.NoneApproved? && !unbundled && !unproven
      ensures ledger ==
        if fallback.NoneApproved? then old(ledger)
        else if successor.None? then WithStatus(old(ledger), rec, Lost)
        else Insert(WithStatus(old(ledger), rec, Lost), successor.value)
      ensures successor.Some? ==>
        && successor.value.supersedes == old(ledger).records[rec].id && successor.value.purpose == old(ledger).records[rec].purpose
        && successor.value.id == id && successor.value.pid == "" && successor.value.status == Starting
        && successor.value.provider == (if fallback.Approved? then fallback.provider else requested)
    {
      var provider := requested;
      if fallback.NoneApproved? {
        return None;
      }
      if fallback.Approved? {
        provider := fallback.provider;
      }
      ledger := WithStatus(ledger, rec, Lost);
      if unbundled || unproven {
        return None;
      }
      var lost := ledger.records[rec];
      var succ := Session(id, "", lost.purpose, Starting, lost.id, provider);
      ledger := Insert(ledger, succ);
      return Some(succ);
    }

    /**
    A whole Start: refused untouched, or a drain of its own session under its predecessor. It
    is one careful run of the ledger, whatever the stream and the host do.
    */
    method StartRun(id: string, purpose: Purpose, provider: string, predecessor: string, resolved: bool, stream: seq<Item>, h: Host)
      returns (out: Outcome)
      requires R.Inv(R.Idle(ledger)) && id != "" && Reusable(ledger, id)
      modifies this
      ensures R.Carries(old(ledger), ledger) && R.Inv(R.Idle(ledger)) && Frozen(old(ledger), ledger)
      ensures !MayStart(old(ledger), purpose, provider, predecessor, resolved) ==> out.Fault? && ledger == old(ledger)
      ensures MayStart(old(ledger), purpose, provider, predecessor, resolved) ==>
        exists stop :: Ends(old(ledger), Start(id, purpose, provider, IdOf(old(ledger), predecessor)), stream, h, stop, out, ledger)
    {
      hide Ends;
      ghost var l := ledger;
      R.CarriesNothing(l);
      R.CarriesSoundly(l, l);
      if purpose.UnknownPurpose? || provider == "" {
        return Fault;
      }
      var parent := "";
      if predecessor != "" {
        if predecessor !in ledger.byProvider || ledger.records[ledger.byProvider[predecessor]].purpose != purpose {
          return Fault;
        }
        parent := ledger.records[ledger.byProvider[predecessor]].id;
      }
      if !resolved {
        return Fault;
      }
      var cfg := Start(id, purpose, provider, parent);
      assert cfg == Start(id, purpose, provider, IdOf(l, predecessor)) by {
        assert "" !in l.byProvider;
      }
      ghost var stop;
      out, stop := Drain(cfg, stream, h);
      StartCarries(l, cfg, predecessor, stream, ledger);
      R.CarriesSoundly(l, ledger);
    }

    /**
    A whole Resume: refused untouched when the session is unknown, settled or of another purpose
    or its provider is not; a drain of its record; or the fallback. It too is a careful run.
    */
    method ResumeRun(pid: string, purpose: Purpose, requested: string, gate: ResumeGate, fallback: Fallback,
                     unbundled: bool, unproven: bool, id: string, stream: seq<Item>, h: Host)
      returns (out: Outcome, successor: Option<Session>)
      requires R.Inv(R.Idle(ledger)) && id != "" && Reusable(ledger, id)
      modifies this
      ensures R.Carries(old(ledger), ledger) && R.Inv(R.Idle(ledger)) && Frozen(old(ledger), ledger)
      ensures !MayResume(old(ledger), pid, purpose, requested) || gate.RouteRefused? || gate.ProviderUnresolved? || gate.AdapterFault? ==>
        out.Fault? && successor.None? && ledger == old(ledger)
      ensures MayResume(old(ledger), pid, purpose, requested) && gate.Streaming? ==>
        successor.None? && DrainsRecord(old(ledger), pid, stream, h, out, ledger)
      ensures MayResume(old(ledger), pid, purpose, requested) && (gate.NoResumeCapability? || gate.Unrecoverable?) ==>
        && out.Fault? && (successor.Some? <==> !fallback.NoneApproved? && !unbundled && !unproven)
        && FallsBack(old(ledger), pid, fallback, successor, ledger)
    {
      ghost var l := ledger;
      assert pid in l.byProvider ==> l.byProvider[pid] < |l.records| && pid != "" && l.records[l.byProvider[pid]].pid == pid;
      hide Ends, R.Inv, R.Carries, Frozen, DrainsRecord, FallsBack, WithStatus, Insert, Consistent, Reusable, Drained, DrainedTo,
        Succeeds, Reports, Known, Look;
      R.CarriesNothing(l);
      R.CarriesSoundly(l, l);
      if purpose.UnknownPurpose? || pid !in ledger.byProvider {
        return Fault, None;
      }
      var rec := ledger.byProvider[pid];
      var provider := if requested == "" then ledger.records[rec].provider else requested;
      if provider == "" || Terminal(ledger.records[rec].status) || ledger.records[rec].purpose != purpose {
        return Fault, None;
      }
      if gate.RouteRefused? || gate.ProviderUnresolved? || gate.AdapterFault? {
        return Fault, None;
      }
      out, successor := Reopen(pid, provider, gate, fallback, unbundled, unproven, id, stream, h);
    }

    /** A live session is handed to the fallback or drained. */
    method Reopen(pid: string, provider: string, gate: ResumeGate, fallback: Fallback,
                  unbundled: bool, unproven: bool, id: string, stream: seq<Item>, h: Host)
      returns (out: Outcome, successor: Option<Session>)
      requires R.Inv(R.Idle(ledger)) && id != "" && Reusable(ledger, id)
      requires pid != "" && pid in ledger.byProvider && ledger.byProvider[pid] < |ledger.records|
      requires ledger.records[ledger.byProvider[pid]].pid == pid && !Terminal(ledger.records[ledger.byProvider[pid]].status)
      requires gate.NoResumeCapability? || gate.Unrecoverable? || gate.Streaming?
      modifies this
      ensures R.Carries(old(ledger), ledger) && R.Inv(R.Idle(ledger)) && Frozen(old(ledger), ledger)
      ensures gate.Streaming? ==> successor.None? && DrainsRecord(old(ledger), pid, stream, h, out, ledger)
      ensures !gate.Streaming? ==>
        && out.Fault? && (successor.Some? <==> !fallback.NoneApproved? && !unbundled && !unproven)
        && FallsBack(old(ledger), pid, fallback, successor, ledger)
    {
      hide Ends, R.Inv, R.Carries, Frozen, DrainsRecord, FallsBack, Consistent, Drained, DrainedTo, Succeeds, Reports;
      ghost var l := ledger;
      var rec := ledger.byProvider[pid];
      if gate.NoResumeCapability? || gate.Unrecoverable? {
        successor := ResumeFallback(rec, provider, fallback, unbundled, unproven, id);
        FallbackCarries(l, rec, successor, ledger);
        R.CarriesSoundly(l, ledger);
        FellBack(l, pid, fallback, successor, ledger);
        return Fault, successor;
      }
      ghost var stop;
      out, stop := Drain(Resume(rec, pid), stream, h);
      ResumeCarries(l, rec, stream, ledger);
      R.CarriesSoundly(l, ledger);
      DrainedRecord(l, pid, stream, h, stop, out, ledger);
      return out, None;
    }
  }

  /** The record of the session was drained. */
  ghost predicate DrainsRecord(l: Ledger, pid: string, stream: seq<Item>, h: Host, out: Outcome, m: Ledger) {
    && pid in l.byProvider && l.byProvider[pid] < |l.records|
    && exists stop :: Ends(l, Resume(l.byProvider[pid], pid), stream, h, stop, out, m)
  }

  lemma DrainedRecord(l: Ledger, pid: string, stream: seq<Item>, h: Host, stop: nat, out: Outcome, m: Ledger)
    requires pid in l.byProvider && l.byProvider[pid] < |l.records| && Ends(l, Resume(l.byProvider[pid], pid), stream, h, stop, out, m)
    ensures DrainsRecord(l, pid, stream, h, out, m)
  {
    hide Ends;
  }

  /** The session is LOST, with the successor, or untouched without an approved fallback. */
  ghost predicate FallsBack(l: Ledger, pid: string, fallback: Fallback, successor: Option<Session>, m: Ledger) {
    && pid in l.byProvider && l.byProvider[pid] < |l.records|
    && var rec := l.byProvider[pid];
      && (successor.Some? ==> successor.value.supersedes == l.records[rec].id && successor.value.purpose == l.records[rec].purpose)
      && m == (
        if fallback.NoneApproved? then l
        else if successor.None? then WithStatus(l, rec, Lost)
        else Insert(WithStatus(l, rec, Lost), successor.value))
  }

  lemma FellBack(l: Ledger, pid: string, fallback: Fallback, successor: Option<Session>, m: Ledger)
    requires pid in l.byProvider && l.byProvider[pid] < |l.records|
    requires successor.Some? ==>
      successor.value.supersedes == l.records[l.byProvider[pid]].id && successor.value.purpose == l.records[l.byProvider[pid]].purpose
    requires m == (
      if fallback.NoneApproved? then l
      else if successor.None? then WithStatus(l, l.byProvider[pid], Lost)
      else Insert(WithStatus(l, l.byProvider[pid], Lost), successor.value))
    ensures FallsBack(l, pid, fallback, successor, m)
  {
  }

  /** A settled session is never resumed; every other one is, for its own purpose on a known provider. */
  lemma ResumedExactly(l: Ledger, pid: string, purpose: Purpose, requested: string)
    requires pid in l.byProvider && l.byProvider[pid] < |l.records|
    ensures
      var s := l.records[l.byProvider[pid]];
      && (s.status in {Completed, Failed, Cancelled, Lost} ==> !MayResume(l, pid, purpose, requested))
      && (s.status in {Starting, Active, Interrupted, Paused, InteractiveIdle} ==>
          s.purpose == purpose && !purpose.UnknownPurpose? && s.provider != "" ==> MayResume(l, pid, purpose, requested))
  {
  }

  /** What a Start needs before its provider runs. */
  predicate MayStart(l: Ledger, purpose: Purpose, provider: string, predecessor: string, resolved: bool) {
    && !purpose.UnknownPurpose? && provider != "" && resolved
    && (predecessor != "" ==>
        && predecessor in l.byProvider && l.byProvider[predecessor] < |l.records|
        && l.records[l.byProvider[predecessor]].purpose == purpose)
  }

  function IdOf(l: Ledger, pid: string): string {
    if pid in l.byProvider && l.byProvider[pid] < |l.records| then l.records[l.byProvider[pid]].id else ""
  }

  /** A session that is known, live, of the purpose, on a known provider. */
  predicate MayResume(l: Ledger, pid: string, purpose: Purpose, requested: string) {
    && !purpose.UnknownPurpose? && pid in l.byProvider && l.byProvider[pid] < |l.records|
    && var s := l.records[l.byProvider[pid]];
      !Terminal(s.status) && s.purpose == purpose && (requested != "" || s.provider != "")
  }

  function StatusOf(out: Outcome): Status
    requires out.Run?
  {
    match out.status case RunSucceeded => Completed case RunCancelled => Cancelled case RunFailed => Failed
  }

  /** The first k items were clean, and these are their events as returned. */
  ghost predicate Reports(l: Ledger, cfg: Config, stream: seq<Item>, h: Host, k: nat, events: seq<P.Event>, terminal: Option<P.Event>) {
    && Clean(l, cfg, stream, h, k)
    && |events| == k
    && (forall j :: 0 <= j < k ==> events[j] == Returned(stream, h, j))
    && terminal == (if k > 0 && P.Terminal(events[k - 1]) then Some(events[k - 1]) else None)
  }

  /** The record the drain works on after k clean items, and the ledger as it stands. */
  ghost predicate Attached(l: Ledger, cfg: Config, stream: seq<Item>, k: nat, session: Option<nat>, now: Ledger)
    requires cfg.Resume? ==> cfg.rec < |l.records|
  {
    && k <= |stream|
    && session == (if k > 0 then Some(Position(l, cfg)) else None)
    && (if k > 0 then DrainedTo(l, cfg, stream, now, Active) else now == l)
  }

  lemma NothingRead(l: Ledger, cfg: Config, stream: seq<Item>, h: Host)
    requires cfg.Resume? ==> cfg.rec < |l.records|
    ensures Reports(l, cfg, stream, h, 0, [], None) && Attached(l, cfg, stream, 0, None, l)
  {
  }

  lemma AttachedRecord(l: Ledger, cfg: Config, stream: seq<Item>, k: nat, session: Option<nat>, now: Ledger)
    requires cfg.Resume? ==> cfg.rec < |l.records|
    requires Attached(l, cfg, stream, k, session, now)
    ensures session.Some? ==> session.value < |now.records|
    ensures session.Some? <==> k > 0
    ensures k == 0 ==> now == l
  {
  }

  lemma Attach(l: Ledger, cfg: Config, stream: seq<Item>, k: nat, session: Option<nat>, was: Ledger, now: Ledger)
    requires cfg.Resume? ==> cfg.rec < |l.records|
    requires k < |stream|
    requires k > 0 ==> Attached(l, cfg, stream, k, session, was) && now == was
    requires k == 0 ==>
      && was == l && session == Some(Position(l, cfg)) && P.Opens(cfg.Bound(), stream[0].event)
      && (cfg.Start? ==> stream[0].event.session !in l.byProvider)
      && now == Claimed(l, cfg, stream[0].event.session, Active)
    ensures Attached(l, cfg, stream, k + 1, session, now)
  {
  }

  lemma StartIsFirst(bound: string, stream: seq<Item>, k: nat)
    requires k < |stream| && P.WellFormed(bound, Events(stream, k + 1))
    ensures stream[k].event.typ == P.SessionStarted <==> k == 0
    ensures k == 0 ==> P.Opens(bound, stream[0].event)
  {
    var es := Events(stream, k + 1);
    assert es[k] == stream[k].event;
    assert k > 0 ==> P.Continues(es[0].session, es[k]);
  }

  /** One more item is clean exactly when none of the drain's exits takes it. */
  lemma NextClean(l: Ledger, cfg: Config, stream: seq<Item>, h: Host, k: nat, events: seq<P.Event>, terminal: Option<P.Event>)
    requires k < |stream| && Reports(l, cfg, stream, h, k, events, terminal)
    ensures Clean(l, cfg, stream, h, k)
    ensures Clean(l, cfg, stream, h, k + 1) <==>
      && stream[k].kind.Frame? && !h.cancelled(k) && h.redacted(k).Some? && (h.evidence ==> !h.unwritten(k))
      && P.WellFormed(cfg.Bound(), Events(stream, k + 1))
      && (k == 0 && cfg.Start? ==> !h.contextDone(0) && stream[0].event.session !in l.byProvider)
    ensures Clean(l, cfg, stream, h, k + 1) ==>
      var e := Returned(stream, h, k);
      Reports(l, cfg, stream, h, k + 1, events + [e], if P.Terminal(e) then Some(e) else terminal)
  {
    if Clean(l, cfg, stream, h, k + 1) && k > 0 {
      var es := Events(stream, k + 1);
      assert es[k - 1] == stream[k - 1].event && !P.Terminal(es[k - 1]);
    }
  }

  lemma AtTheEnd(l: Ledger, cfg: Config, stream: seq<Item>, h: Host, events: seq<P.Event>, terminal: Option<P.Event>)
    requires Reports(l, cfg, stream, h, |stream|, events, terminal)
    ensures |events| == |stream| && Stops(l, cfg, stream, h, |stream|)
    ensures terminal.Some? <==> stream != [] && P.Terminal(stream[|stream| - 1].event)
    ensures terminal.Some? ==> terminal.value.typ == stream[|stream| - 1].event.typ
  {
  }

  /** What is not settled is left active. */
  lemma StaysActive(l: Ledger, cfg: Config, stream: seq<Item>, a: nat, session: Option<nat>, now: Ledger)
    requires cfg.Resume? ==> cfg.rec < |l.records|
    requires Attached(l, cfg, stream, a, session, now) && a > 0
    ensures session.Some? && session.value < |now.records| && WithStatus(now, session.value, Active) == now
  {
    var i := Position(l, cfg);
    assert now.records[i].status == Active;
    assert now.records[i := now.records[i]] == now.records;
  }

  /** The ledger a drain leaves, from the one its record was attached in. */
  lemma LeftFrom(l: Ledger, cfg: Config, stream: seq<Item>, h: Host, k: nat, a: nat, session: Option<nat>, now: Ledger, m: Ledger)
    requires cfg.Resume? ==> cfg.rec < |l.records|
    requires k <= |stream| && Attached(l, cfg, stream, a, session, now) && (a > 0 <==> Opened(l, cfg, stream, h, k))
    requires a > 0 ==> session.value < |now.records|
    requires m ==
      if a > 0 && h.evidence && !EndStatus(cfg, stream, h, k).Active? then WithStatus(now, session.value, EndStatus(cfg, stream, h, k))
      else now
    ensures m == Left(l, cfg, stream, h, k)
  {
    if m != now {
      assert m == Claimed(l, cfg, stream[0].event.session, EndStatus(cfg, stream, h, k));
    }
  }

  lemma FaultEnds(l: Ledger, cfg: Config, stream: seq<Item>, h: Host, k: nat, events: seq<P.Event>, terminal: Option<P.Event>,
                  a: nat, session: Option<nat>, now: Ledger, m: Ledger)
    requires cfg.Resume? ==> cfg.rec < |l.records|
    requires Reports(l, cfg, stream, h, k, events, terminal) && Stops(l, cfg, stream, h, k) && !CancelledAt(stream, h, k)
    requires k == |stream| ==> terminal.None?
    requires Attached(l, cfg, stream, a, session, now) && (a > 0 <==> Opened(l, cfg, stream, h, k)) && (session.Some? <==> a > 0)
    requires a > 0 ==> session.value < |now.records|
    requires m ==
      if a > 0 && h.evidence && !EndStatus(cfg, stream, h, k).Active? then WithStatus(now, session.value, EndStatus(cfg, stream, h, k))
      else now
    ensures Ends(l, cfg, stream, h, k, Fault, m)
  {
    LeftFrom(l, cfg, stream, h, k, a, session, now, m);
  }

  lemma RunEnds(l: Ledger, cfg: Config, stream: seq<Item>, h: Host, k: nat, events: seq<P.Event>, terminal: Option<P.Event>,
                session: Option<nat>, now: Ledger, out: Outcome, m: Ledger)
    requires cfg.Resume? ==> cfg.rec < |l.records|
    requires Reports(l, cfg, stream, h, k, events, terminal) && Stops(l, cfg, stream, h, k)
    requires Attached(l, cfg, stream, k, session, now) && (k > 0 <==> Opened(l, cfg, stream, h, k)) && (session.Some? <==> k > 0)
    requires session.Some? ==> session.value < |now.records|
    requires CancelledAt(stream, h, k) || (k == |stream| && k > 0 && P.Terminal(stream[k - 1].event))
    requires m == if session.Some? && h.evidence then WithStatus(now, session.value, EndStatus(cfg, stream, h, k)) else now
    requires out.Fault? <==> session.Some? && h.evidence && h.manifestUnwritten
    requires out.Run? ==> out.status == RunStatusOf(EndStatus(cfg, stream, h, k)) && out.events == events && out.terminal == terminal
    ensures Ends(l, cfg, stream, h, k, out, m)
  {
    LeftFrom(l, cfg, stream, h, k, k, session, now, m);
  }

  /** What the end of a drain means for its result and its session. */
  lemma EndsMean(l: Ledger, cfg: Config, stream: seq<Item>, h: Host, k: nat, out: Outcome, m: Ledger)
    requires cfg.Resume? ==> cfg.rec < |l.records|
    requires Ends(l, cfg, stream, h, k, out, m)
    ensures out.Run? && out.status == RunSucceeded <==> Succeeds(l, cfg, stream, h)
    ensures out.Run? ==> Reports(l, cfg, stream, h, |out.events|, out.events, out.terminal)
    ensures out.Run? && out.status != RunCancelled ==> |out.events| == |stream| && out.terminal.Some?
    ensures out.Run? && out.status == RunFailed ==> out.terminal.Some? && out.terminal.value.typ == P.Failed
    ensures out.Run? && out.status == RunCancelled ==>
      h.cancelled(|out.events|) || (|out.events| == |stream| && h.cancelled(|stream| + 1))
    ensures Drained(l, cfg, stream, m)
    ensures h.evidence && out.Run? && out.events != [] ==> DrainedTo(l, cfg, stream, m, StatusOf(out))
  {
    if Succeeds(l, cfg, stream, h) {
      StopsOnce(l, cfg, stream, h, k, |stream|);
    }
    if Opened(l, cfg, stream, h, k) {
      OpenedClaims(l, cfg, stream, h, k);
    }
    hide Clean, Claimed;
  }

  lemma OpenedClaims(l: Ledger, cfg: Config, stream: seq<Item>, h: Host, k: nat)
    requires Clean(l, cfg, stream, h, k) && Opened(l, cfg, stream, h, k)
    ensures stream != [] && P.Opens(cfg.Bound(), stream[0].event)
    ensures cfg.Start? ==> stream[0].event.session !in l.byProvider
  {
    var n := if k > 0 then k else 1;
    assert Events(stream, n)[0] == stream[0].event;
  }

  predicate BodyType(t: P.EventType) {
    t in {P.AssistantDelta, P.AssistantMessage, P.ToolStarted, P.ToolFinished, P.Usage}
  }

  /** A successful run, event by event: one session, one usable completion, at the very end. */
  lemma SucceedsExactly(l: Ledger, cfg: Config, stream: seq<Item>, h: Host)
    ensures Succeeds(l, cfg, stream, h) <==>
      var n := |stream|;
      && n >= 2 && (forall j :: 0 <= j < n ==> stream[j].kind.Frame?)
      && stream[0].event.typ == P.SessionStarted && stream[0].event.session != ""
      && (cfg.Resume? && cfg.bound != "" ==> stream[0].event.session == cfg.bound)
      && (cfg.Start? ==> !h.contextDone(0) && stream[0].event.session !in l.byProvider)
      && (forall j :: 0 < j < n ==> stream[j].event.session == stream[0].event.session)
      && (forall j :: 0 < j < n - 1 ==> BodyType(stream[j].event.typ))
      && stream[n - 1].event.typ == P.Completed && stream[n - 1].event.objectResult
      && (forall j :: 0 <= j <= n + 1 ==> !h.cancelled(j))
      && (forall j :: 0 <= j < n ==> h.redacted(j).Some? && (h.evidence ==> !h.unwritten(j)))
      && (h.evidence ==> !h.manifestUnwritten)
  {
    var n := |stream|;
    var es := Events(stream, n);
    assert forall j :: 0 <= j < n ==> es[j] == stream[j].event;
    assert n > 0 && P.Opens(cfg.Bound(), es[0]) ==> es[0].typ == P.SessionStarted;
  }

  /** An opened session is left FAILED in exactly these cases, and ACTIVE, CANCELLED or COMPLETED otherwise. */
  lemma FailedExactly(l: Ledger, cfg: Config, stream: seq<Item>, h: Host, k: nat)
    requires cfg.Resume? ==> cfg.rec < |l.records|
    requires Stops(l, cfg, stream, h, k) && Opened(l, cfg, stream, h, k) && h.evidence
    ensures
      var st := Left(l, cfg, stream, h, k).records[Position(l, cfg)].status;
      var noCompletion := k == |stream| && stream[k - 1].event.typ != P.Completed;
      var crashed := k < |stream| && stream[k].kind.ProcessCrash? && !h.crashUnredacted;
      var rejected := k < |stream| && stream[k].kind.Frame? && !P.WellFormed(cfg.Bound(), Events(stream, k + 1));
      var violated := k < |stream| && (stream[k].kind.ProtocolFault? || rejected) && !h.contextDone(k) && !h.violationUnwritten;
      var unredacted := k < |stream| && stream[k].kind.Frame? && !rejected && h.redacted(k).None?;
      && (st == Failed <==> !CancelledAt(stream, h, k) && (noCompletion || crashed || violated || unredacted))
      && (st == Completed <==> !CancelledAt(stream, h, k) && k == |stream| && stream[k - 1].event.typ == P.Completed)
      && (st == Cancelled <==> CancelledAt(stream, h, k))
      && st in {Active, Completed, Failed, Cancelled}
  {
  }

  /** A drain leaves the ledger alone, or leaves the claimed record live or settled. */
  ghost predicate Drained(l: Ledger, cfg: Config, stream: seq<Item>, m: Ledger)
    requires cfg.Resume? ==> cfg.rec < |l.records|
  {
    m == l || DrainedTo(l, cfg, stream, m, Active) || DrainedTo(l, cfg, stream, m, Completed)
    || DrainedTo(l, cfg, stream, m, Failed) || DrainedTo(l, cfg, stream, m, Cancelled)
  }

  ghost predicate DrainedTo(l: Ledger, cfg: Config, stream: seq<Item>, m: Ledger, st: Status)
    requires cfg.Resume? ==> cfg.rec < |l.records|
  {
    && stream != [] && P.Opens(cfg.Bound(), stream[0].event)
    && (cfg.Start? ==> stream[0].event.session !in l.byProvider)
    && m == Claimed(l, cfg, stream[0].event.session, st)
  }

  lemma StartCarries(l: Ledger, cfg: Config, predecessor: string, stream: seq<Item>, m: Ledger)
    requires R.Inv(R.Idle(l)) && cfg.Start? && cfg.id != "" && Reusable(l, cfg.id) && !cfg.purpose.UnknownPurpose?
    requires if predecessor == "" then cfg.supersedes == "" else
      && predecessor in l.byProvider
      && l.records[l.byProvider[predecessor]].purpose == cfg.purpose && l.records[l.byProvider[predecessor]].id == cfg.supersedes
    requires Drained(l, cfg, stream, m)
    ensures R.Carries(l, m)
  {
    hide R.HeirsOk, R.Lineage, R.CarefulRun, R.After;
    var s := R.Idle(l);
    var begin := R.BeginStart(0, cfg.purpose, cfg.provider, predecessor);
    var started := R.Apply(s, begin);
    if m == l {
      R.CarriesNothing(l);
    } else {
      var pid := stream[0].event.session;
      var claim := R.Establish(0, cfg.id, pid);
      R.One(s, begin);
      R.Extend(s, [begin], claim);
      R.SettleCarries(l, [begin] + [claim], R.Apply(started, claim), |l.records|, m);
    }
  }

  lemma ResumeCarries(l: Ledger, rec: nat, stream: seq<Item>, m: Ledger)
    requires R.Inv(R.Idle(l)) && rec < |l.records| && l.records[rec].pid != "" && !Terminal(l.records[rec].status)
    requires Drained(l, Resume(rec, l.records[rec].pid), stream, m)
    ensures R.Carries(l, m)
  {
    var s := R.Idle(l);
    assert Reachable(l, rec);
    var begin := R.BeginResume(0, l.records[rec].pid, l.records[rec].purpose);
    if m == l {
      R.CarriesNothing(l);
    } else {
      R.One(s, begin);
      R.SettleCarries(l, [begin], R.Apply(s, begin), rec, m);
    }
  }

  lemma FallbackCarries(l: Ledger, rec: nat, successor: Option<Session>, m: Ledger)
    requires R.Inv(R.Idle(l)) && rec < |l.records| && l.records[rec].pid != "" && !Terminal(l.records[rec].status)
    requires m == l || m == WithStatus(l, rec, Lost)
      || (successor.Some? && m == Insert(WithStatus(l, rec, Lost), successor.value))
    requires successor.Some? ==>
      && successor.value == Session(successor.value.id, "", l.records[rec].purpose, Starting, l.records[rec].id, successor.value.provider)
      && successor.value.id != "" && Reusable(l, successor.value.id)
    ensures R.Carries(l, m)
  {
    var s := R.Idle(l);
    assert Reachable(l, rec);
    R.CarriesNothing(l);
    var begin, lose := R.BeginResume(0, l.records[rec].pid, l.records[rec].purpose), R.Lose(0);
    R.One(s, begin);
    R.Extend(s, [begin], lose);
    var lost := R.After(s, [begin] + [lose]);
    if m != l && m != WithStatus(l, rec, Lost) {
      R.Extend(s, [begin] + [lose], R.Succeed(0, successor.value.id, successor.value.provider));
    }
  }
}
