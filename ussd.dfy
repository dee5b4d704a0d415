/**
 * `USSDSession` objects and the session table they live in. A `Session`
 * holds one row's columns in mutable fields; the methods that change it
 * are proved against the row functions of `Lifecycle` and `Records`. A
 * `SessionStore` holds the table, and its `HandleIncoming` and
 * `HandleInterrupt` are proved against `Reconciler.Reconcile` and
 * `Reconciler.Interrupt`.
 */
module Ussd {
  import opened Wrappers
  import opened Statuses
  import opened Records
  import opened Lifecycle
  import opened Queries
  import opened Reconciler

  class Session {
    const id: SessionId
    var externalId: ExternalId
    var channel: Option<Channel>
    var contact: ContactId
    var contactUrn: Option<UrnId>
    var org: OrgId
    var direction: Option<Direction>
    var status: Status
    var startedOn: Option<Time>
    var endedOn: Option<Time>
    const createdBy: UserId
    const modifiedBy: UserId

    /** The row this object holds. */
    function Record(): SessionRecord
      reads this
    {
      SessionRecord(id, externalId, channel, contact, contactUrn, org,
                    direction, status, startedOn, endedOn, createdBy, modifiedBy)
    }

    constructor (r: SessionRecord)
      ensures Record() == r
    {
      id := r.id;
      externalId := r.externalId;
      channel := r.channel;
      contact := r.contact;
      contactUrn := r.contactUrn;
      org := r.org;
      direction := r.direction;
      status := r.status;
      startedOn := r.startedOn;
      endedOn := r.endedOn;
      createdBy := r.createdBy;
      modifiedBy := r.modifiedBy;
    }

    /** `mark_ending`: only a session not already ENDING is written. */
    method MarkEnding()
      modifies this
      ensures Record() == MarkedEnding(old(Record()))
    {
      if status != Ending {
        status := Ending;
      }
    }

    /** `close` at time `now`. */
    method Close(now: Time)
      modifies this
      ensures Record() == Closed(old(Record()), now)
    {
      if status == Ending {
        status := Completed;
      } else {
        status := Interrupted;
      }
      endedOn := Some(now);
    }

    /** `setattr(session, key, value)` for one column. */
    method SetAttr(f: Field)
      modifies this
      ensures Record() == Assign(old(Record()), f)
    {
      match f
      case SetExternalId(v) => externalId := v;
      case SetChannel(v) => channel := v;
      case SetContact(v) => contact := v;
      case SetContactUrn(v) => contactUrn := v;
      case SetOrg(v) => org := v;
      case SetDirection(v) => direction := v;
      case SetStatus(v) => status := v;
      case SetStartedOn(v) => startedOn := v;
      case SetEndedOn(v) => endedOn := v;
    }

    /**
     * The `setattr` loop over a dictionary, taking its keys in an order the
     * caller does not control: the result is the dictionary copied onto the
     * row.
     */
    method Update(p: Patch)
      modifies this
      ensures Record() == Overlay(old(Record()), p)
    {
      var keys := Keys(p);
      ghost var written: set<FieldName> := {};
      RestrictBounds(p);
      OverlayEmpty(Record());
      while keys != {}
        invariant written + keys == Keys(p) && written !! keys
        invariant Record() == Overlay(old(Record()), Restrict(p, written))
        decreases keys
      {
        var k :| k in keys;
        OverlayStep(old(Record()), p, written, k);
        SetAttr(Entry(p, k));
        keys := keys - {k};
        written := written + {k};
      }
    }
  }

  /** The rows the objects `ss` hold, in order. */
  function RecordsOf(ss: seq<Session>): (rs: seq<SessionRecord>)
    reads ss
    ensures |rs| == |ss|
    ensures forall i :: 0 <= i < |ss| ==> rs[i] == ss[i].Record()
  {
    if ss == [] then [] else RecordsOf(ss[..|ss| - 1]) + [ss[|ss| - 1].Record()]
  }

  /**
   * The USSD session table: its objects in primary-key order, and the
   * primary key the next created session gets.
   */
  class SessionStore {
    var sessions: seq<Session>
    var nextId: SessionId

    /** Distinct objects, with increasing primary keys all below `nextId`. */
    ghost predicate Valid()
      reads this
    {
      (forall i, j :: 0 <= i < j < |sessions| ==> sessions[i].id < sessions[j].id) &&
      (forall i :: 0 <= i < |sessions| ==> sessions[i].id < nextId)
    }

    function Rows(): seq<SessionRecord>
      reads this, sessions
    {
      RecordsOf(sessions)
    }

    /** A valid store is a table in primary-key order. */
    lemma ValidRowsOrdered()
      requires Valid()
      ensures IdsOrdered(Rows(), nextId)
    {
    }

    constructor ()
      ensures Valid() && Rows() == [] && nextId == 1
    {
      sessions := [];
      nextId := 1;
    }

    /** `USSDSession.objects.create(**p)`: a new session at the end of the table. */
    method Create(p: Patch) returns (s: Session)
      requires Valid()
      modifies this
      ensures Valid() && fresh(s)
      ensures sessions == old(sessions) + [s] && nextId == old(nextId) + 1
      ensures s.Record() == NewRecord(old(nextId), p)
      ensures Rows() == old(Rows()) + [NewRecord(old(nextId), p)]
    {
      s := new Session(NewRecord(nextId, p));
      sessions := sessions + [s];
      nextId := nextId + 1;
    }

    /**
     * Copy a dictionary onto the `i`th session, save it, and hand it the
     * event on the handle path.
     */
    method Resume(i: nat, p: Patch, trigger: Option<Flow>, asynchronous: bool)
      returns (outcome: Outcome, session: Session)
      requires Valid() && i < |sessions|
      modifies sessions[i]
      ensures Valid() && sessions == old(sessions) && session == sessions[i]
      ensures outcome.HasSession() && session.id == outcome.session
      ensures Reconciled(outcome, Rows()) == ResumeAt(old(Rows()), i, p, trigger, asynchronous)
    {
      session := sessions[i];
      session.Update(p);
      outcome := Dispatch(false, trigger, asynchronous, session.id);
    }

    /**
     * Create a session from a dictionary, and start its flow when there is
     * a trigger or hand it the event otherwise.
     */
    method CreateAndDispatch(p: Patch, trigger: Option<Flow>, asynchronous: bool)
      returns (outcome: Outcome, session: Session)
      requires Valid()
      modifies this
      ensures Valid() && session in sessions && nextId == old(nextId) + 1
      ensures outcome.HasSession() && session.id == outcome.session
      ensures Reconciled(outcome, Rows()) == CreateAt(old(Rows()), old(nextId), p, trigger, asynchronous)
    {
      session := Create(p);
      outcome := Dispatch(true, trigger, asynchronous, session.id);
    }

    /** `close` the `i`th session and save it. */
    method CloseRow(i: nat, now: Time)
      requires Valid() && i < |sessions|
      modifies sessions[i]
      ensures Valid()
      ensures Rows() == old(Rows())[i := Closed(old(Rows())[i], now)]
    {
      sessions[i].Close(now);
    }

    /**
     * `handle_incoming`: the outcome and the new table are those of
     * `Reconcile` on the old table; the session returned is the one the
     * outcome names, a row of the table.
     */
    method HandleIncoming(inp: Incoming) returns (outcome: Outcome, session: Session?)
      requires Valid()
      modifies this, sessions
      ensures Valid()
      ensures Reconciled(outcome, Rows()) == Reconcile(old(Rows()), old(nextId), inp)
      ensures nextId == (if |Rows()| == |old(Rows())| then old(nextId) else old(nextId) + 1)
      ensures session != null <==> outcome.HasSession()
      ensures session != null ==> session in sessions && session.id == outcome.session
    {
      var trigger := Trigger(inp);
      if NoMatchingTrigger(inp) {
        return NoSession, null;
      }
      match InitiatedPushSession(Rows(), inp.contact) {
        case Some(i) =>
          outcome, session := Resume(i, WithExternalId(Defaults(inp), inp.externalId), trigger, inp.asynchronous);
        case None =>
          outcome, session := HandleUnpushed(inp);
      }
    }

    /** The part of `handle_incoming` after the push-session lookup found nothing. */
    method HandleUnpushed(inp: Incoming) returns (outcome: Outcome, session: Session?)
      requires Valid()
      modifies this, sessions
      ensures Valid()
      ensures Reconciled(outcome, Rows()) == Unpushed(old(Rows()), old(nextId), inp)
      ensures nextId == (if |Rows()| == |old(Rows())| then old(nextId) else old(nextId) + 1)
      ensures session != null <==> outcome.HasSession()
      ensures session != null ==> session in sessions && session.id == outcome.session
    {
      var rows := Rows();
      match OpenByExternalId(rows, inp.externalId) {
        case MultipleObjectsReturned =>
          return MultipleMatches, null;
        case Found(i) =>
          assert Unpushed(rows, nextId, inp) == ResumeAt(rows, i, Defaults(inp), Trigger(inp), inp.asynchronous);
          outcome, session := Resume(i, Defaults(inp), Trigger(inp), inp.asynchronous);
        case DoesNotExist =>
          assert Unpushed(rows, nextId, inp) == Unmatched(rows, nextId, inp);
          outcome, session := HandleUnmatched(inp);
      }
    }

    /** The part of `handle_incoming` after the external-id lookup found nothing. */
    method HandleUnmatched(inp: Incoming) returns (outcome: Outcome, session: Session?)
      requires Valid()
      modifies this
      ensures Valid()
      ensures Reconciled(outcome, Rows()) == Unmatched(old(Rows()), old(nextId), inp)
      ensures nextId == (if |Rows()| == |old(Rows())| then old(nextId) else old(nextId) + 1)
      ensures session != null <==> outcome.HasSession()
      ensures session != null ==> session in sessions && session.id == outcome.session
    {
      var trigger := Trigger(inp);
      if !inp.asynchronous && trigger.None? {
        return NoSession, null;
      }
      outcome, session := CreateAndDispatch(WithExternalId(Defaults(inp), inp.externalId), trigger, inp.asynchronous);
    }

    /**
     * `handle_interrupt`: the outcome and the new table are those of
     * `Interrupt` on the old table; the session returned, if any, is the
     * closed one.
     */
    method HandleInterrupt(externalId: ExternalId, asynchronous: bool, now: Time)
      returns (outcome: Outcome, session: Session?)
      requires Valid()
      modifies sessions
      ensures Valid() && sessions == old(sessions) && nextId == old(nextId)
      ensures Reconciled(outcome, Rows()) == Interrupt(old(Rows()), externalId, asynchronous, now)
      ensures session != null <==> outcome.HasSession()
      ensures session != null ==> session in sessions && session.id == outcome.session
    {
      match SessionByExternalId(Rows(), externalId)
      case None =>
        return NoSession, null;
      case Some(i) =>
        CloseRow(i, now);
        session := sessions[i];
        outcome := Dispatch(false, None, asynchronous, session.id);
    }
  }
}
