/**
 * The reconciler of `USSDSession.handle_incoming` and `handle_interrupt`,
 * as functions from the session table before a call to the outcome of the
 * call and the table after it. Contact resolution, trigger lookup and the
 * flow engine are inputs; the outcome records which dispatch path runs.
 */
module Reconciler {
  import opened Wrappers
  import opened Statuses
  import opened Records
  import opened Queries
  import opened Lifecycle

  type Flow = nat

  /** One inbound gateway event, with the contact already resolved. */
  datatype Incoming = Incoming(
    channel: Option<Channel>,
    contact: ContactId,
    contactOrg: OrgId,            // the org of the resolved contact
    contactUrn: Option<UrnId>,
    date: Time,
    externalId: ExternalId,
    hint: Option<Status>,         // the gateway's status hint
    lookup: Option<Flow>,         // the flow of the trigger the lookup finds, if any
    asynchronous: bool)

  /** Which dispatch path a call takes, and for which session. */
  datatype Outcome =
    | NoSession                                     // (None, None)
    | StartAsync(session: SessionId, flow: Flow)    // flow started, (session, None)
    | StartSync(session: SessionId, flow: Flow)     // flow started, (session, msgs)
    | HandleAsync(session: SessionId)               // message recorded, (session, None)
    | HandleSync(session: SessionId)                // message handled, (session, msgs); an interrupt drops msgs
    | MultipleMatches                               // the `.get` raises MultipleObjectsReturned
  {
    predicate HasSession() {
      StartAsync? || StartSync? || HandleAsync? || HandleSync?
    }

    predicate StartsFlow() {
      StartAsync? || StartSync?
    }

    predicate ReturnsMessages() {
      StartSync? || HandleSync?
    }
  }

  datatype Reconciled = Reconciled(outcome: Outcome, rows: seq<SessionRecord>)

  /** The trigger is only looked up for a TRIGGERED hint. */
  function Trigger(inp: Incoming): Option<Flow> {
    if inp.hint == Some(Triggered) then inp.lookup else None
  }

  /** A TRIGGERED hint for which no trigger was found. */
  predicate NoMatchingTrigger(inp: Incoming) {
    inp.hint == Some(Triggered) && inp.lookup.None?
  }

  function OrgOf(inp: Incoming): OrgId {
    if inp.channel.Some? then inp.channel.value.org else inp.contactOrg
  }

  /** The columns the defaults of a hint write. */
  function WrittenKeys(hint: Option<Status>): set<FieldName> {
    {KChannel, KContact, KContactUrn, KOrg, KStatus} +
    (if hint == Some(Triggered) then {KStartedOn, KDirection}
     else if hint == Some(Interrupted) then {KEndedOn}
     else {})
  }

  /** The `defaults` dictionary of `handle_incoming`, before the external id is added. */
  function Defaults(inp: Incoming): Patch {
    var triggered := inp.hint == Some(Triggered);
    var interrupted := inp.hint == Some(Interrupted);
    Patch(
      externalId := None,
      channel := Some(inp.channel),
      contact := Some(inp.contact),
      contactUrn := Some(inp.contactUrn),
      org := Some(OrgOf(inp)),
      direction := if triggered then Some(Some(Pull)) else None,
      status := Some(if triggered then Triggered else if interrupted then Interrupted else InProgress),
      startedOn := if triggered then Some(Some(inp.date)) else None,
      endedOn := if interrupted then Some(Some(inp.date)) else None)
  }

  /** `defaults.update(dict(external_id=...))`. */
  function WithExternalId(d: Patch, externalId: ExternalId): Patch {
    d.(externalId := Some(externalId))
  }

  /** The defaults write exactly the columns of the hint, and never the external id. */
  lemma DefaultsKeys(inp: Incoming)
    ensures Keys(Defaults(inp)) == WrittenKeys(inp.hint)
    ensures Keys(WithExternalId(Defaults(inp), inp.externalId)) == WrittenKeys(inp.hint) + {KExternalId}
  {
  }

  /** Start a flow only for a session just created with a trigger; otherwise handle. */
  function Dispatch(created: bool, trigger: Option<Flow>, asynchronous: bool, id: SessionId): (o: Outcome)
    ensures o.HasSession() && o.session == id
    ensures o.StartsFlow() <==> created && trigger.Some?
    ensures o.StartsFlow() ==> o.flow == trigger.value
    ensures o.ReturnsMessages() <==> !asynchronous
  {
    if created && trigger.Some? then
      if asynchronous then StartAsync(id, trigger.value) else StartSync(id, trigger.value)
    else
      if asynchronous then HandleAsync(id) else HandleSync(id)
  }

  /** Copy `p` onto the `i`th row and hand it the event on the handle path. */
  function ResumeAt(rows: seq<SessionRecord>, i: nat, p: Patch, trigger: Option<Flow>, asynchronous: bool): Reconciled
    requires i < |rows|
  {
    Reconciled(Dispatch(false, trigger, asynchronous, rows[i].id), rows[i := Overlay(rows[i], p)])
  }

  /** Append a row created from `p`, and start its flow or hand it the event. */
  function CreateAt(rows: seq<SessionRecord>, nextId: SessionId, p: Patch, trigger: Option<Flow>, asynchronous: bool): Reconciled {
    Reconciled(Dispatch(true, trigger, asynchronous, nextId), rows + [NewRecord(nextId, p)])
  }

  /**
   * `handle_incoming` on a table `rows` whose next primary key is `nextId`:
   * abort, patch the initiated push session, or go on to the external id.
   */
  function Reconcile(rows: seq<SessionRecord>, nextId: SessionId, inp: Incoming): Reconciled {
    if NoMatchingTrigger(inp) then Reconciled(NoSession, rows)
    else
      match InitiatedPushSession(rows, inp.contact)
      case Some(i) => ResumeAt(rows, i, WithExternalId(Defaults(inp), inp.externalId), Trigger(inp), inp.asynchronous)
      case None => Unpushed(rows, nextId, inp)
  }

  /**
   * Without a push session: patch the one open session with the external
   * id, fail when there are several, and go on when there is none.
   */
  function Unpushed(rows: seq<SessionRecord>, nextId: SessionId, inp: Incoming): Reconciled {
    match OpenByExternalId(rows, inp.externalId)
    case Found(i) => ResumeAt(rows, i, Defaults(inp), Trigger(inp), inp.asynchronous)
    case MultipleObjectsReturned => Reconciled(MultipleMatches, rows)
    case DoesNotExist => Unmatched(rows, nextId, inp)
  }

  /**
   * No session to resume: create one with the external id, unless the
   * event is synchronous and has no trigger.
   */
  function Unmatched(rows: seq<SessionRecord>, nextId: SessionId, inp: Incoming): Reconciled {
    if !inp.asynchronous && Trigger(inp).None? then Reconciled(NoSession, rows)
    else CreateAt(rows, nextId, WithExternalId(Defaults(inp), inp.externalId), Trigger(inp), inp.asynchronous)
  }

  /**
   * `handle_interrupt`: close the first open session with the id and hand it
   * an empty message. `handle_interrupt` returns only the session, so a
   * synchronous outcome here records the dispatch path taken; the messages
   * that path produces are discarded.
   */
  function Interrupt(rows: seq<SessionRecord>, externalId: ExternalId, asynchronous: bool, now: Time): Reconciled {
    match SessionByExternalId(rows, externalId)
    case None => Reconciled(NoSession, rows)
    case Some(i) => CloseAt(rows, i, asynchronous, now)
  }

  /** Close the `i`th row and hand it the empty message on the handle path. */
  function CloseAt(rows: seq<SessionRecord>, i: nat, asynchronous: bool, now: Time): Reconciled
    requires i < |rows|
  {
    Reconciled(Dispatch(false, None, asynchronous, rows[i].id), rows[i := Closed(rows[i], now)])
  }

  /** A row that carries what the event's defaults write, external id included. */
  predicate CarriesEvent(r: SessionRecord, inp: Incoming) {
    r.externalId == inp.externalId &&
    r.channel == inp.channel && r.contact == inp.contact &&
    r.contactUrn == inp.contactUrn && r.org == OrgOf(inp) &&
    (inp.hint == Some(Triggered) ==>
       r.status == Triggered && r.startedOn == Some(inp.date) && r.direction == Some(Pull)) &&
    (inp.hint == Some(Interrupted) ==>
       r.status == Interrupted && r.endedOn == Some(inp.date)) &&
    (inp.hint != Some(Triggered) && inp.hint != Some(Interrupted) ==> r.status == InProgress)
  }

  /**
   * Copying the defaults onto a row, alone or with the external id added,
   * makes it carry the event and keeps every column the hint does not write.
   */
  lemma PatchCarriesEvent(r: SessionRecord, inp: Incoming, withId: bool)
    requires withId || r.externalId == inp.externalId
    ensures var d := Defaults(inp);
            var r' := Overlay(r, if withId then WithExternalId(d, inp.externalId) else d);
            CarriesEvent(r', inp) && r'.id == r.id &&
            r'.createdBy == r.createdBy && r'.modifiedBy == r.modifiedBy &&
            forall k :: k !in WrittenKeys(inp.hint) && k != KExternalId ==> Get(r', k) == Get(r, k)
  {
    var d := Defaults(inp);
    OverlayColumns(r, if withId then WithExternalId(d, inp.externalId) else d);
  }

  // ---- properties of handle_incoming ----

  /** A TRIGGERED hint with no trigger returns (None, None) and writes nothing. */
  lemma MissingTriggerAborts(rows: seq<SessionRecord>, nextId: SessionId, inp: Incoming)
    requires NoMatchingTrigger(inp)
    ensures Reconcile(rows, nextId, inp) == Reconciled(NoSession, rows)
  {
  }

  /**
   * At most one session is created per call, and at most one existing
   * session is written; a created session has the next primary key and the
   * event's external id.
   */
  lemma AtMostOneCreated(rows: seq<SessionRecord>, nextId: SessionId, inp: Incoming)
    ensures var r := Reconcile(rows, nextId, inp);
            |rows| <= |r.rows| <= |rows| + 1 &&
            (forall i, j :: 0 <= i < j < |rows| ==> r.rows[i] == rows[i] || r.rows[j] == rows[j]) &&
            (|r.rows| == |rows| + 1 ==>
               r.rows[..|rows|] == rows &&
               r.rows[|rows|].id == nextId && r.rows[|rows|].externalId == inp.externalId)
  {
    var r := Reconcile(rows, nextId, inp);
    if |r.rows| == |rows| + 1 {
      var p := WithExternalId(Defaults(inp), inp.externalId);
      assert r.rows == rows + [NewRecord(nextId, p)];
      assert Get(NewRecord(nextId, p), KExternalId) == SetExternalId(inp.externalId);
    }
  }

  /**
   * Push precedence: when the contact has an INITIATED PUSH session, the
   * first such session takes the event. Nothing is created, no other row
   * changes, its external id becomes the event's, it carries the hint's
   * defaults, its other columns and audit users are kept (so without a
   * TRIGGERED hint it stays a PUSH session with its start time), and the
   * call takes the handle path.
   */
  lemma PushPrecedence(rows: seq<SessionRecord>, nextId: SessionId, inp: Incoming, i: nat)
    requires !NoMatchingTrigger(inp)
    requires InitiatedPushSession(rows, inp.contact) == Some(i)
    ensures var r := Reconcile(rows, nextId, inp);
            i < |rows| && |r.rows| == |rows| &&
            (forall j :: 0 <= j < |rows| && j != i ==> r.rows[j] == rows[j]) &&
            CarriesEvent(r.rows[i], inp) && r.rows[i].id == rows[i].id &&
            r.rows[i].createdBy == rows[i].createdBy && r.rows[i].modifiedBy == rows[i].modifiedBy &&
            (forall k :: k !in WrittenKeys(inp.hint) && k != KExternalId ==> Get(r.rows[i], k) == Get(rows[i], k)) &&
            (inp.hint != Some(Triggered) ==>
               r.rows[i].direction == Some(Push) && r.rows[i].startedOn == rows[i].startedOn) &&
            r.outcome == (if inp.asynchronous then HandleAsync(rows[i].id) else HandleSync(rows[i].id))
  {
    PatchCarriesEvent(rows[i], inp, true);
    if inp.hint != Some(Triggered) {
      assert Get(Reconcile(rows, nextId, inp).rows[i], KDirection) == Get(rows[i], KDirection);
      assert Get(Reconcile(rows, nextId, inp).rows[i], KStartedOn) == Get(rows[i], KStartedOn);
    }
  }

  /**
   * Without a push session, the one open session carrying the external id
   * is resumed: it carries the hint's defaults, its other columns are kept,
   * nothing is created, and the call takes the handle path.
   */
  lemma ResumeByExternalId(rows: seq<SessionRecord>, nextId: SessionId, inp: Incoming, i: nat)
    requires !NoMatchingTrigger(inp)
    requires InitiatedPushSession(rows, inp.contact).None?
    requires i < |rows| && IsOpenWith(rows[i], inp.externalId)
    requires forall j :: 0 <= j < |rows| && j != i ==> !IsOpenWith(rows[j], inp.externalId)
    ensures var r := Reconcile(rows, nextId, inp);
            |r.rows| == |rows| &&
            (forall j :: 0 <= j < |rows| && j != i ==> r.rows[j] == rows[j]) &&
            CarriesEvent(r.rows[i], inp) &&
            r.rows[i].id == rows[i].id &&
            r.rows[i].createdBy == rows[i].createdBy && r.rows[i].modifiedBy == rows[i].modifiedBy &&
            (forall k :: k !in WrittenKeys(inp.hint) && k != KExternalId ==> Get(r.rows[i], k) == Get(rows[i], k)) &&
            r.outcome == (if inp.asynchronous then HandleAsync(rows[i].id) else HandleSync(rows[i].id))
  {
    var g := OpenByExternalId(rows, inp.externalId);
    assert g.Found? && g.index == i;
    PatchCarriesEvent(rows[i], inp, false);
  }

  /** Two open sessions with the external id make the `.get` raise; nothing is written. */
  lemma AmbiguousExternalIdFails(rows: seq<SessionRecord>, nextId: SessionId, inp: Incoming, a: nat, b: nat)
    requires !NoMatchingTrigger(inp)
    requires InitiatedPushSession(rows, inp.contact).None?
    requires a < b < |rows| && IsOpenWith(rows[a], inp.externalId) && IsOpenWith(rows[b], inp.externalId)
    ensures Reconcile(rows, nextId, inp) == Reconciled(MultipleMatches, rows)
  {
    var g := OpenByExternalId(rows, inp.externalId);
    assert !g.DoesNotExist?;
    assert !g.Found?;
  }

  /** A synchronous event with no trigger and no session to resume returns (None, None). */
  lemma UnmatchedSyncWithoutTrigger(rows: seq<SessionRecord>, nextId: SessionId, inp: Incoming)
    requires InitiatedPushSession(rows, inp.contact).None?
    requires forall j :: 0 <= j < |rows| ==> !IsOpenWith(rows[j], inp.externalId)
    requires !inp.asynchronous && Trigger(inp).None?
    ensures Reconcile(rows, nextId, inp) == Reconciled(NoSession, rows)
  {
    assert OpenByExternalId(rows, inp.externalId).DoesNotExist?;
  }

  /**
   * Otherwise exactly one session is created, at the end of the table, with
   * the next primary key, the event's external id and the hint's defaults;
   * the columns the hint does not write are empty, the creator is stamped,
   * and the flow starts exactly when there is a trigger.
   */
  lemma CreatesOne(rows: seq<SessionRecord>, nextId: SessionId, inp: Incoming)
    requires !NoMatchingTrigger(inp)
    requires InitiatedPushSession(rows, inp.contact).None?
    requires forall j :: 0 <= j < |rows| ==> !IsOpenWith(rows[j], inp.externalId)
    requires inp.asynchronous || Trigger(inp).Some?
    ensures var r := Reconcile(rows, nextId, inp);
            |r.rows| == |rows| + 1 && r.rows[..|rows|] == rows &&
            var n := r.rows[|rows|];
            n.id == nextId && CarriesEvent(n, inp) &&
            n.createdBy == n.modifiedBy &&
            (inp.channel.Some? ==> n.createdBy == inp.channel.value.createdBy) &&
            (inp.channel.None? ==> n.createdBy == AnonymousUser) &&
            (inp.hint != Some(Triggered) ==> n.startedOn.None? && n.direction.None?) &&
            (inp.hint != Some(Interrupted) ==> n.endedOn.None?) &&
            r.outcome == Dispatch(true, Trigger(inp), inp.asynchronous, nextId)
  {
    assert OpenByExternalId(rows, inp.externalId).DoesNotExist?;
    var p := WithExternalId(Defaults(inp), inp.externalId);
    var n := NewRecord(nextId, p);
    assert Reconcile(rows, nextId, inp).rows == rows + [n];
    PatchCarriesEvent(Blank(nextId), inp, true);
    assert ChannelGiven(p) == inp.channel;
    if inp.hint != Some(Triggered) {
      assert Get(n, KStartedOn) == Get(Blank(nextId), KStartedOn);
      assert Get(n, KDirection) == Get(Blank(nextId), KDirection);
    }
    if inp.hint != Some(Interrupted) {
      assert Get(n, KEndedOn) == Get(Blank(nextId), KEndedOn);
    }
  }

  /**
   * Done sessions are never matched: every row whose status is done before
   * the call is the same after it.
   */
  lemma DoneSessionsUntouched(rows: seq<SessionRecord>, nextId: SessionId, inp: Incoming)
    ensures var r := Reconcile(rows, nextId, inp);
            forall i :: 0 <= i < |rows| && IsDone(rows[i].status) ==> r.rows[i] == rows[i]
  {
  }

  /**
   * A created session owns its external id among the old rows: none of them
   * is open with it, so a terminal session with a reused id stays terminal
   * and the event gets a new row.
   */
  lemma CreatedOwnsExternalId(rows: seq<SessionRecord>, nextId: SessionId, inp: Incoming)
    ensures var r := Reconcile(rows, nextId, inp);
            |r.rows| == |rows| + 1 ==>
              forall j :: 0 <= j < |rows| ==> !IsOpenWith(r.rows[j], inp.externalId)
  {
  }

  /**
   * A redelivered event finds the session its first delivery created: when
   * the hint is not INTERRUPTED, the same event again creates nothing and
   * hands the event to that session.
   */
  lemma RetryResumes(rows: seq<SessionRecord>, nextId: SessionId, inp: Incoming)
    requires inp.hint != Some(Interrupted)
    requires |Reconcile(rows, nextId, inp).rows| == |rows| + 1
    ensures var r1 := Reconcile(rows, nextId, inp).rows;
            var r2 := Reconcile(r1, nextId + 1, inp);
            |r2.rows| == |r1| &&
            r2.outcome == (if inp.asynchronous then HandleAsync(nextId) else HandleSync(nextId))
  {
    var r1 := Reconcile(rows, nextId, inp).rows;
    assert !NoMatchingTrigger(inp);
    assert InitiatedPushSession(rows, inp.contact).None?;
    assert OpenByExternalId(rows, inp.externalId).DoesNotExist?;
    CreatesOne(rows, nextId, inp);
    var n := r1[|rows|];
    assert !IsInitiatedPush(n, inp.contact);
    forall j | 0 <= j < |r1| ensures !IsInitiatedPush(r1[j], inp.contact) {
      if j < |rows| {
        assert r1[j] == rows[j];
      }
    }
    assert IsOpenWith(n, inp.externalId);
    ResumeByExternalId(r1, nextId + 1, inp, |rows|);
  }

  /**
   * An event with an INTERRUPTED hint and no session to resume creates a
   * row that is already done, so the `.get` skips it: afterwards there is
   * still no session to resume, and each delivery of the event creates
   * another row.
   */
  lemma InterruptedEventCreatesDoneRow(rows: seq<SessionRecord>, nextId: SessionId, inp: Incoming)
    requires inp.hint == Some(Interrupted) && inp.asynchronous
    requires InitiatedPushSession(rows, inp.contact).None?
    requires forall j :: 0 <= j < |rows| ==> !IsOpenWith(rows[j], inp.externalId)
    ensures var r := Reconcile(rows, nextId, inp).rows;
            |r| == |rows| + 1 && IsDone(r[|rows|].status) &&
            InitiatedPushSession(r, inp.contact).None? &&
            forall j :: 0 <= j < |r| ==> !IsOpenWith(r[j], inp.externalId)
  {
    var r := Reconcile(rows, nextId, inp).rows;
    CreatesOne(rows, nextId, inp);
    forall j | 0 <= j < |r|
      ensures !IsInitiatedPush(r[j], inp.contact) && !IsOpenWith(r[j], inp.externalId)
    {
      if j < |rows| {
        assert r[j] == rows[j];
      }
    }
  }

  /** Two deliveries of one INTERRUPTED event on the empty table give two rows with its id. */
  lemma InterruptedRetryCreatesAgain()
    ensures var inp := Incoming(None, 7, 0, None, 0, "x", Some(Interrupted), None, true);
            var r1 := Reconcile([], 1, inp).rows;
            var r2 := Reconcile(r1, 2, inp).rows;
            |r1| == 1 && |r2| == 2 &&
            r2[0].externalId == "x" && r2[1].externalId == "x" && r2[0].id != r2[1].id
  {
    var inp := Incoming(None, 7, 0, None, 0, "x", Some(Interrupted), None, true);
    InterruptedEventCreatesDoneRow([], 1, inp);
    var r1 := Reconcile([], 1, inp).rows;
    InterruptedEventCreatesDoneRow(r1, 2, inp);
    AtMostOneCreated(r1, 2, inp);
  }

  /**
   * The flow-start path runs exactly when a session was created and a
   * trigger found; a call returns messages exactly when it is synchronous
   * and yields a session; a call that yields no session writes nothing; a
   * session returned is a row of the table.
   */
  lemma DispatchPaths(rows: seq<SessionRecord>, nextId: SessionId, inp: Incoming)
    ensures var r := Reconcile(rows, nextId, inp);
            (r.outcome.StartsFlow() <==> |r.rows| == |rows| + 1 && Trigger(inp).Some?) &&
            (r.outcome.ReturnsMessages() <==> r.outcome.HasSession() && !inp.asynchronous) &&
            (!r.outcome.HasSession() ==> r.rows == rows) &&
            (r.outcome.HasSession() ==> exists i :: 0 <= i < |r.rows| && r.rows[i].id == r.outcome.session)
  {
    var r := Reconcile(rows, nextId, inp);
    if !NoMatchingTrigger(inp) {
      match InitiatedPushSession(rows, inp.contact)
      case Some(i) =>
        assert r.rows[i].id == r.outcome.session;
      case None =>
        match OpenByExternalId(rows, inp.externalId)
        case Found(i) =>
          assert r.rows[i].id == r.outcome.session;
        case MultipleObjectsReturned =>
        case DoesNotExist =>
          if inp.asynchronous || Trigger(inp).Some? {
            assert r.rows[|rows|].id == r.outcome.session;
          }
    }
  }

  /** Every old row keeps its primary key. */
  lemma ReconcileKeepsIds(rows: seq<SessionRecord>, nextId: SessionId, inp: Incoming)
    ensures var r := Reconcile(rows, nextId, inp);
            |rows| <= |r.rows| &&
            forall i :: 0 <= i < |rows| ==> r.rows[i].id == rows[i].id
  {
    var r := Reconcile(rows, nextId, inp);
    if !NoMatchingTrigger(inp) {
      match InitiatedPushSession(rows, inp.contact)
      case Some(i) =>
        assert r.rows == rows[i := r.rows[i]] && r.rows[i].id == rows[i].id;
      case None =>
        match OpenByExternalId(rows, inp.externalId)
        case Found(i) =>
          assert r.rows == rows[i := r.rows[i]] && r.rows[i].id == rows[i].id;
        case MultipleObjectsReturned =>
        case DoesNotExist =>
    }
  }

  /** The table stays in primary-key order, and a created row uses up `nextId`. */
  lemma ReconcileKeepsIdsOrdered(rows: seq<SessionRecord>, nextId: SessionId, inp: Incoming)
    requires IdsOrdered(rows, nextId)
    ensures var r := Reconcile(rows, nextId, inp);
            IdsOrdered(r.rows, if |r.rows| == |rows| + 1 then nextId + 1 else nextId)
  {
    var r := Reconcile(rows, nextId, inp);
    AtMostOneCreated(rows, nextId, inp);
    ReconcileKeepsIds(rows, nextId, inp);
    var bound := if |r.rows| == |rows| + 1 then nextId + 1 else nextId;
    forall i | 0 <= i < |r.rows| ensures r.rows[i].id < bound {
      if i < |rows| {
        assert r.rows[i].id == rows[i].id;
      }
    }
    forall i, j | 0 <= i < j < |r.rows| ensures r.rows[i].id < r.rows[j].id {
      assert r.rows[i].id == rows[i].id;
      if j < |rows| {
        assert r.rows[j].id == rows[j].id;
      }
    }
  }

  // ---- table invariants ----

  /** No two open sessions carry the same external id. */
  predicate OpenIdsUnique(rows: seq<SessionRecord>) {
    forall i, j :: 0 <= i < j < |rows| && !IsDone(rows[i].status) && !IsDone(rows[j].status) ==>
      rows[i].externalId != rows[j].externalId
  }

  /**
   * Every path of `handle_incoming` except the push resume keeps open
   * external ids unique: a resumed session keeps its id, and a session is
   * created only when no open session carries the event's id.
   */
  lemma UnpushedKeepsOpenIdsUnique(rows: seq<SessionRecord>, nextId: SessionId, inp: Incoming)
    requires OpenIdsUnique(rows)
    requires NoMatchingTrigger(inp) || InitiatedPushSession(rows, inp.contact).None?
    ensures OpenIdsUnique(Reconcile(rows, nextId, inp).rows)
  {
    if !NoMatchingTrigger(inp) {
      var x := inp.externalId;
      match OpenByExternalId(rows, x)
      case Found(i) =>
        var rs := Reconcile(rows, nextId, inp).rows;
        assert rs == rows[i := Overlay(rows[i], Defaults(inp))];
        assert rs[i].externalId == x;
        forall a, b | 0 <= a < b < |rs| && !IsDone(rs[a].status) && !IsDone(rs[b].status)
          ensures rs[a].externalId != rs[b].externalId
        {
          if a == i {
            assert !IsOpenWith(rows[b], x);
          } else if b == i {
            assert !IsOpenWith(rows[a], x);
          }
        }
      case MultipleObjectsReturned =>
      case DoesNotExist =>
        var rs := Reconcile(rows, nextId, inp).rows;
        if |rs| == |rows| + 1 {
          AtMostOneCreated(rows, nextId, inp);
          forall a, b | 0 <= a < b < |rs| && !IsDone(rs[a].status) && !IsDone(rs[b].status)
            ensures rs[a].externalId != rs[b].externalId
          {
            if b == |rows| {
              assert !IsOpenWith(rows[a], x);
            } else {
              assert rs[a] == rows[a] && rs[b] == rows[b];
            }
          }
        }
    }
  }

  /**
   * The push resume does not keep them unique. Contact 7 has an open pull
   * session "x" and an initiated push session "y". An event for "x" resumes
   * the push session and copies "x" onto it, so two open sessions now carry
   * "x". The same event again finds no push session, and the `.get` by
   * external id fails with MultipleObjectsReturned.
   */
  lemma PushResumeDuplicatesOpenId()
    ensures var a := SessionRecord(1, "x", None, 7, None, 0, Some(Pull), InProgress, None, None, 0, 0);
            var b := SessionRecord(2, "y", None, 7, None, 0, Some(Push), Initiated, None, None, 0, 0);
            var inp := Incoming(None, 7, 0, None, 0, "x", None, None, true);
            var first := Reconcile([a, b], 3, inp);
            OpenIdsUnique([a, b]) && !OpenIdsUnique(first.rows) &&
            Reconcile(first.rows, 3, inp) == Reconciled(MultipleMatches, first.rows)
  {
    var a := SessionRecord(1, "x", None, 7, None, 0, Some(Pull), InProgress, None, None, 0, 0);
    var b := SessionRecord(2, "y", None, 7, None, 0, Some(Push), Initiated, None, None, 0, 0);
    var inp := Incoming(None, 7, 0, None, 0, "x", None, None, true);
    assert "x" != "y" by { assert "x"[0] != "y"[0]; }
    assert InitiatedPushSession([a, b], 7) == Some(1) by {
      assert !IsInitiatedPush([a, b][0], 7) && IsInitiatedPush([a, b][1], 7);
    }
    var b' := Overlay(b, WithExternalId(Defaults(inp), "x"));
    var first := Reconcile([a, b], 3, inp);
    assert first.rows == [a, b'];
    assert b'.externalId == "x" && b'.status == InProgress;
    assert !OpenIdsUnique(first.rows) by {
      assert first.rows[0].externalId == first.rows[1].externalId;
    }
    assert InitiatedPushSession(first.rows, 7).None? by {
      assert !IsInitiatedPush(first.rows[0], 7) && !IsInitiatedPush(first.rows[1], 7);
    }
    AmbiguousExternalIdFails(first.rows, 3, inp, 0, 1);
  }

  /** A session has an end time exactly when its status is done. */
  predicate EndedIffDone(rows: seq<SessionRecord>) {
    forall i :: 0 <= i < |rows| ==> (rows[i].endedOn.Some? <==> IsDone(rows[i].status))
  }

  /** Patching an open session with the defaults keeps end times in step with done statuses. */
  lemma PatchKeepsEndedIffDone(rows: seq<SessionRecord>, i: nat, inp: Incoming, withId: bool)
    requires EndedIffDone(rows) && i < |rows| && !IsDone(rows[i].status)
    requires withId || rows[i].externalId == inp.externalId
    ensures var p := if withId then WithExternalId(Defaults(inp), inp.externalId) else Defaults(inp);
            EndedIffDone(rows[i := Overlay(rows[i], p)])
  {
    var p := if withId then WithExternalId(Defaults(inp), inp.externalId) else Defaults(inp);
    var r' := Overlay(rows[i], p);
    PatchCarriesEvent(rows[i], inp, withId);
    if inp.hint != Some(Interrupted) {
      assert Get(r', KEndedOn) == Get(rows[i], KEndedOn);
    }
    assert r'.endedOn.Some? <==> IsDone(r'.status);
  }

  /** `handle_incoming` keeps end times in step with done statuses. */
  lemma ReconcileKeepsEndedIffDone(rows: seq<SessionRecord>, nextId: SessionId, inp: Incoming)
    requires EndedIffDone(rows)
    ensures EndedIffDone(Reconcile(rows, nextId, inp).rows)
  {
    if !NoMatchingTrigger(inp) {
      match InitiatedPushSession(rows, inp.contact)
      case Some(i) =>
        PatchKeepsEndedIffDone(rows, i, inp, true);
      case None =>
        match OpenByExternalId(rows, inp.externalId)
        case Found(i) =>
          PatchKeepsEndedIffDone(rows, i, inp, false);
        case MultipleObjectsReturned =>
        case DoesNotExist =>
          if inp.asynchronous || Trigger(inp).Some? {
            var rs := Reconcile(rows, nextId, inp).rows;
            CreatesOne(rows, nextId, inp);
            assert rs == rows + [rs[|rows|]];
          }
    }
  }

  // ---- properties of handle_interrupt ----

  /** No open session with the id: returns None and writes nothing. */
  lemma InterruptWithoutMatch(rows: seq<SessionRecord>, externalId: ExternalId, asynchronous: bool, now: Time)
    requires forall j :: 0 <= j < |rows| ==> !IsOpenWith(rows[j], externalId)
    ensures Interrupt(rows, externalId, asynchronous, now) == Reconciled(NoSession, rows)
  {
  }

  /**
   * Otherwise the first open session with the id is closed by the `close`
   * rule, no other row changes, and it is handed on the handle path.
   */
  lemma InterruptClosesMatch(rows: seq<SessionRecord>, externalId: ExternalId, asynchronous: bool, now: Time, i: nat)
    requires i < |rows| && IsOpenWith(rows[i], externalId)
    requires forall j :: 0 <= j < i ==> !IsOpenWith(rows[j], externalId)
    ensures var r := Interrupt(rows, externalId, asynchronous, now);
            |r.rows| == |rows| &&
            (forall j :: 0 <= j < |rows| && j != i ==> r.rows[j] == rows[j]) &&
            r.rows[i] == Closed(rows[i], now) &&
            r.rows[i].status == (if rows[i].status == Ending then Completed else Interrupted) &&
            r.outcome == (if asynchronous then HandleAsync(rows[i].id) else HandleSync(rows[i].id))
  {
    assert SessionByExternalId(rows, externalId) == Some(i);
  }

  /** Done sessions are never matched by an interrupt. */
  lemma InterruptSkipsDone(rows: seq<SessionRecord>, externalId: ExternalId, asynchronous: bool, now: Time)
    ensures var r := Interrupt(rows, externalId, asynchronous, now);
            |r.rows| == |rows| &&
            forall i :: 0 <= i < |rows| && IsDone(rows[i].status) ==> r.rows[i] == rows[i]
  {
  }

  /** `handle_interrupt` keeps end times in step with done statuses. */
  lemma InterruptKeepsEndedIffDone(rows: seq<SessionRecord>, externalId: ExternalId, asynchronous: bool, now: Time)
    requires EndedIffDone(rows)
    ensures EndedIffDone(Interrupt(rows, externalId, asynchronous, now).rows)
  {
  }
}
