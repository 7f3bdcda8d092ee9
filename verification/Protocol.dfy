/**
The per-stream protocol automaton of the agent runtime: which sequences of provider events
it accepts. Every shipped binding declares `session_started` as its start event.
*/
module Protocol {

  datatype EventType =
    | SessionStarted | AssistantDelta | AssistantMessage | ToolStarted | ToolFinished | Usage | Completed | Failed
    | Unknown(name: string)

  /**
  One unified event. `objectResult` says whether the result payload parses as a non-null JSON
  object; the redacted text fields carry no protocol meaning and are left out.
  */
  datatype Event = Event(
    typ: EventType,
    session: string,
    objectResult: bool,
    code: string,
    message: string,
    seqNo: nat)

  datatype Verdict = Accepted | Violation | MissingID

  predicate Terminal(e: Event) {
    e.typ == Completed || e.typ == Failed
  }

  /** The start event claims an id, and on resume re-affirms the bound one. */
  predicate Opens(bound: string, e: Event) {
    e.typ == SessionStarted && e.session != "" && (bound != "" ==> e.session == bound)
  }

  /** A later event of a known type, under the claimed id, with a usable terminal payload. */
  predicate Continues(session: string, e: Event) {
    && e.typ != SessionStarted
    && !e.typ.Unknown?
    && e.session == session
    && (e.typ == Completed ==> e.objectResult)
    && (e.typ == Failed ==> e.code != "" && e.message != "")
  }

  /** The language of the protocol: start, body events, and nothing after a terminal event. */
  ghost predicate WellFormed(bound: string, es: seq<Event>) {
    && (es != [] ==> Opens(bound, es[0]))
    && (forall i :: 0 < i < |es| ==> Continues(es[0].session, es[i]))
    && (forall i :: 0 <= i < |es| - 1 ==> !Terminal(es[i]))
  }

  lemma WellFormedPrefix(bound: string, es: seq<Event>, k: nat)
    requires WellFormed(bound, es) && k <= |es|
    ensures WellFormed(bound, es[..k])
  {
  }

  /** One more event keeps a sequence well formed exactly when it opens it, or continues it before any terminal event. */
  lemma WellFormedNext(bound: string, es: seq<Event>, e: Event)
    requires WellFormed(bound, es)
    ensures WellFormed(bound, es + [e]) <==>
      if es == [] then Opens(bound, e) else !Terminal(es[|es| - 1]) && Continues(es[0].session, e)
    ensures es != [] ==> es[0].session != ""
  {
    var longer := es + [e];
    assert longer[|es|] == e && forall i :: 0 <= i < |es| ==> longer[i] == es[i];
    if es != [] && Terminal(es[|es| - 1]) {
      assert Terminal(longer[|longer| - 2]);
    }
  }

  /** Which event may come next, type by type. */
  lemma NextEvent(bound: string, es: seq<Event>, e: Event)
    requires WellFormed(bound, es)
    ensures es == [] ==> (WellFormed(bound, [e]) <==> e.typ == SessionStarted && e.session != "" && (bound == "" || e.session == bound))
    ensures es != [] ==> (WellFormed(bound, es + [e]) <==>
      && es[|es| - 1].typ != Completed && es[|es| - 1].typ != Failed && e.session == es[0].session
      && match e.typ
         case SessionStarted => false
         case Unknown(_) => false
         case Completed => e.objectResult
         case Failed => e.code != "" && e.message != ""
         case _ => true)
  {
    WellFormedNext(bound, es, e);
    assert [] + [e] == [e];
  }

  class ProtocolSequence {
    const bound: string
    var started: bool
    var established: string
    var terminated: bool
    var seqNo: nat
    ghost var accepted: seq<Event>

    /** Holds until the first rejected event; every caller stops there. */
    ghost predicate Valid()
      reads this
    {
      && WellFormed(bound, accepted)
      && seqNo == |accepted|
      && (started <==> accepted != [])
      && (accepted != [] ==> established == accepted[0].session)
      && (terminated <==> accepted != [] && Terminal(accepted[|accepted| - 1]))
    }

    constructor (bound: string)
      ensures Valid() && this.bound == bound && accepted == [] && seqNo == 0
    {
      this.bound := bound;
      started, established, terminated, seqNo, accepted := false, "", false, 0, [];
    }

    /** Accepts an event exactly when the events so far, with it, are still well formed. */
    method Accept(ev: Event) returns (verdict: Verdict, numbered: Event)
      requires Valid()
      modifies this
      ensures verdict.Accepted? <==> WellFormed(bound, old(accepted) + [ev])
      ensures verdict.Accepted? ==> Valid() && accepted == old(accepted) + [ev]
      ensures verdict.MissingID? <==>
        ev.session == "" && !ev.typ.Unknown? && !old(terminated) && (ev.typ == SessionStarted <==> old(accepted) == [])
      ensures seqNo == old(seqNo) + 1 && numbered == ev.(seqNo := seqNo)
    {
      hide WellFormed;
      WellFormedNext(bound, accepted, ev);
      seqNo := seqNo + 1;
      numbered := ev.(seqNo := seqNo);
      if terminated {
        return Violation, numbered;
      }
      if ev.typ == SessionStarted {
        if started {
          return Violation, numbered;
        }
        started := true;
        if ev.session == "" {
          return MissingID, numbered;
        }
        if bound != "" && ev.session != bound {
          return Violation, numbered;
        }
        established := ev.session;
        accepted := accepted + [ev];
        return Accepted, numbered;
      }
      if ev.typ.Unknown? || !started {
        return Violation, numbered;
      }
      if ev.session == "" || ev.session != established {
        return if ev.session == "" then MissingID else Violation, numbered;
      }
      if (ev.typ == Completed && !ev.objectResult) || (ev.typ == Failed && (ev.code == "" || ev.message == "")) {
        return Violation, numbered;
      }
      terminated := Terminal(ev);
      accepted := accepted + [ev];
      return Accepted, numbered;
    }
  }
}
