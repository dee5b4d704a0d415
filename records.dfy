/**
 * A USSD session row and the field patches the reconciler writes onto it.
 *
 * `handle_incoming` builds a dictionary of column values (`defaults`) and copies it
 * onto a session with `setattr`, one key at a time. Here a key is a
 * `FieldName`, a key with its value is a `Field`, and the dictionary is a
 * `Patch`, with one optional component per column.
 */
module Records {
  import opened Wrappers
  import opened Statuses

  type SessionId = nat
  type ContactId = nat
  type UrnId = nat
  type OrgId = nat
  type UserId = nat
  type ChannelId = nat
  type Time = int
  type ExternalId = string

  /** A channel, as far as sessions need one: its org and the user who created it. */
  datatype Channel = Channel(id: ChannelId, org: OrgId, createdBy: UserId)

  /** The stand-in user for callers without a channel (the simulator). */
  const AnonymousUser: UserId := 0

  datatype SessionRecord = SessionRecord(
    id: SessionId,
    externalId: ExternalId,
    channel: Option<Channel>,
    contact: ContactId,
    contactUrn: Option<UrnId>,
    org: OrgId,
    direction: Option<Direction>,
    status: Status,
    startedOn: Option<Time>,
    endedOn: Option<Time>,
    createdBy: UserId,
    modifiedBy: UserId)

  /** The columns the reconciler may write; id and the audit users are not among them. */
  datatype FieldName =
    | KExternalId | KChannel | KContact | KContactUrn | KOrg
    | KDirection | KStatus | KStartedOn | KEndedOn

  datatype Field =
    | SetExternalId(externalId: ExternalId)
    | SetChannel(channel: Option<Channel>)
    | SetContact(contact: ContactId)
    | SetContactUrn(contactUrn: Option<UrnId>)
    | SetOrg(org: OrgId)
    | SetDirection(direction: Option<Direction>)
    | SetStatus(status: Status)
    | SetStartedOn(startedOn: Option<Time>)
    | SetEndedOn(endedOn: Option<Time>)

  function KeyOf(f: Field): FieldName {
    match f
    case SetExternalId(_) => KExternalId
    case SetChannel(_) => KChannel
    case SetContact(_) => KContact
    case SetContactUrn(_) => KContactUrn
    case SetOrg(_) => KOrg
    case SetDirection(_) => KDirection
    case SetStatus(_) => KStatus
    case SetStartedOn(_) => KStartedOn
    case SetEndedOn(_) => KEndedOn
  }

  /** The column `k` of `r`, as a field ready to be written back. */
  function Get(r: SessionRecord, k: FieldName): (f: Field)
    ensures KeyOf(f) == k
  {
    match k
    case KExternalId => SetExternalId(r.externalId)
    case KChannel => SetChannel(r.channel)
    case KContact => SetContact(r.contact)
    case KContactUrn => SetContactUrn(r.contactUrn)
    case KOrg => SetOrg(r.org)
    case KDirection => SetDirection(r.direction)
    case KStatus => SetStatus(r.status)
    case KStartedOn => SetStartedOn(r.startedOn)
    case KEndedOn => SetEndedOn(r.endedOn)
  }

  /** `setattr(session, key, value)`: writes one column and no other. */
  function Assign(r: SessionRecord, f: Field): (r': SessionRecord)
    ensures Get(r', KeyOf(f)) == f
    ensures forall k :: k != KeyOf(f) ==> Get(r', k) == Get(r, k)
    ensures r'.id == r.id && r'.createdBy == r.createdBy && r'.modifiedBy == r.modifiedBy
  {
    match f
    case SetExternalId(v) => r.(externalId := v)
    case SetChannel(v) => r.(channel := v)
    case SetContact(v) => r.(contact := v)
    case SetContactUrn(v) => r.(contactUrn := v)
    case SetOrg(v) => r.(org := v)
    case SetDirection(v) => r.(direction := v)
    case SetStatus(v) => r.(status := v)
    case SetStartedOn(v) => r.(startedOn := v)
    case SetEndedOn(v) => r.(endedOn := v)
  }

  /** Two rows with the same id, audit users and columns are the same row. */
  lemma SameColumns(a: SessionRecord, b: SessionRecord)
    requires a.id == b.id && a.createdBy == b.createdBy && a.modifiedBy == b.modifiedBy
    requires forall k :: Get(a, k) == Get(b, k)
    ensures a == b
  {
    assert Get(a, KExternalId) == Get(b, KExternalId);
    assert Get(a, KChannel) == Get(b, KChannel);
    assert Get(a, KContact) == Get(b, KContact);
    assert Get(a, KContactUrn) == Get(b, KContactUrn);
    assert Get(a, KOrg) == Get(b, KOrg);
    assert Get(a, KDirection) == Get(b, KDirection);
    assert Get(a, KStatus) == Get(b, KStatus);
    assert Get(a, KStartedOn) == Get(b, KStartedOn);
    assert Get(a, KEndedOn) == Get(b, KEndedOn);
  }

  /**
   * A dictionary of column values. A component is `Some` when the dictionary
   * has that key; for a nullable column the value itself is an `Option`.
   */
  datatype Patch = Patch(
    externalId: Option<ExternalId>,
    channel: Option<Option<Channel>>,
    contact: Option<ContactId>,
    contactUrn: Option<Option<UrnId>>,
    org: Option<OrgId>,
    direction: Option<Option<Direction>>,
    status: Option<Status>,
    startedOn: Option<Option<Time>>,
    endedOn: Option<Option<Time>>)

  const EmptyPatch := Patch(None, None, None, None, None, None, None, None, None)

  predicate HasKey(p: Patch, k: FieldName) {
    match k
    case KExternalId => p.externalId.Some?
    case KChannel => p.channel.Some?
    case KContact => p.contact.Some?
    case KContactUrn => p.contactUrn.Some?
    case KOrg => p.org.Some?
    case KDirection => p.direction.Some?
    case KStatus => p.status.Some?
    case KStartedOn => p.startedOn.Some?
    case KEndedOn => p.endedOn.Some?
  }

  /** The keys of the dictionary. */
  function Keys(p: Patch): set<FieldName> {
    set k: FieldName | HasKey(p, k)
  }

  /** The value the dictionary holds for key `k`. */
  function Entry(p: Patch, k: FieldName): (f: Field)
    requires HasKey(p, k)
    ensures KeyOf(f) == k
  {
    match k
    case KExternalId => SetExternalId(p.externalId.value)
    case KChannel => SetChannel(p.channel.value)
    case KContact => SetContact(p.contact.value)
    case KContactUrn => SetContactUrn(p.contactUrn.value)
    case KOrg => SetOrg(p.org.value)
    case KDirection => SetDirection(p.direction.value)
    case KStatus => SetStatus(p.status.value)
    case KStartedOn => SetStartedOn(p.startedOn.value)
    case KEndedOn => SetEndedOn(p.endedOn.value)
  }

  /** The part of `p` under the keys `ks`. */
  function Restrict(p: Patch, ks: set<FieldName>): Patch {
    Patch(
      externalId := if KExternalId in ks then p.externalId else None,
      channel := if KChannel in ks then p.channel else None,
      contact := if KContact in ks then p.contact else None,
      contactUrn := if KContactUrn in ks then p.contactUrn else None,
      org := if KOrg in ks then p.org else None,
      direction := if KDirection in ks then p.direction else None,
      status := if KStatus in ks then p.status else None,
      startedOn := if KStartedOn in ks then p.startedOn else None,
      endedOn := if KEndedOn in ks then p.endedOn else None)
  }

  /** The key `k` of a restricted dictionary. */
  lemma RestrictColumn(p: Patch, ks: set<FieldName>, k: FieldName)
    ensures HasKey(Restrict(p, ks), k) <==> HasKey(p, k) && k in ks
    ensures HasKey(Restrict(p, ks), k) ==> Entry(Restrict(p, ks), k) == Entry(p, k)
  {
    match k
    case KExternalId =>
    case KChannel =>
    case KContact =>
    case KContactUrn =>
    case KOrg =>
    case KDirection =>
    case KStatus =>
    case KStartedOn =>
    case KEndedOn =>
  }

  /** Restricting to no key leaves the empty dictionary; to all keys, the dictionary itself. */
  lemma RestrictBounds(p: Patch)
    ensures Restrict(p, {}) == EmptyPatch
    ensures Restrict(p, Keys(p)) == p
  {
  }

  /** The row after copying the dictionary `p` onto `r`. */
  function Overlay(r: SessionRecord, p: Patch): SessionRecord {
    SessionRecord(
      id := r.id,
      externalId := if p.externalId.Some? then p.externalId.value else r.externalId,
      channel := if p.channel.Some? then p.channel.value else r.channel,
      contact := if p.contact.Some? then p.contact.value else r.contact,
      contactUrn := if p.contactUrn.Some? then p.contactUrn.value else r.contactUrn,
      org := if p.org.Some? then p.org.value else r.org,
      direction := if p.direction.Some? then p.direction.value else r.direction,
      status := if p.status.Some? then p.status.value else r.status,
      startedOn := if p.startedOn.Some? then p.startedOn.value else r.startedOn,
      endedOn := if p.endedOn.Some? then p.endedOn.value else r.endedOn,
      createdBy := r.createdBy,
      modifiedBy := r.modifiedBy)
  }

  /**
   * The one column `k` of an overlaid row: the dictionary's value when it
   * has the key, the row's own value otherwise.
   */
  lemma OverlayColumn(r: SessionRecord, p: Patch, k: FieldName)
    ensures Get(Overlay(r, p), k) == (if HasKey(p, k) then Entry(p, k) else Get(r, k))
  {
    match k
    case KExternalId =>
    case KChannel =>
    case KContact =>
    case KContactUrn =>
    case KOrg =>
    case KDirection =>
    case KStatus =>
    case KStartedOn =>
    case KEndedOn =>
  }

  /** Every column of an overlaid row, and the id and audit users it keeps. */
  lemma OverlayColumns(r: SessionRecord, p: Patch)
    ensures forall k :: Get(Overlay(r, p), k) == (if HasKey(p, k) then Entry(p, k) else Get(r, k))
    ensures Overlay(r, p).id == r.id
    ensures Overlay(r, p).createdBy == r.createdBy && Overlay(r, p).modifiedBy == r.modifiedBy
  {
    forall k ensures Get(Overlay(r, p), k) == (if HasKey(p, k) then Entry(p, k) else Get(r, k)) {
      OverlayColumn(r, p, k);
    }
  }

  /** Copying the empty dictionary changes nothing. */
  lemma OverlayEmpty(r: SessionRecord)
    ensures Overlay(r, EmptyPatch) == r
  {
  }

  /**
   * Writing the value of one more key `k` with `setattr` after copying the
   * keys `ks` is copying `ks` and `k`: the `setattr` loop may take the keys
   * in any order.
   */
  lemma OverlayStep(r: SessionRecord, p: Patch, ks: set<FieldName>, k: FieldName)
    requires HasKey(p, k)
    ensures Assign(Overlay(r, Restrict(p, ks)), Entry(p, k)) == Overlay(r, Restrict(p, ks + {k}))
  {
    var before := Restrict(p, ks);
    var after := Restrict(p, ks + {k});
    var a := Assign(Overlay(r, before), Entry(p, k));
    forall j ensures Get(a, j) == Get(Overlay(r, after), j) {
      OverlayColumn(r, after, j);
      RestrictColumn(p, ks + {k}, j);
      if j != k {
        OverlayColumn(r, before, j);
        RestrictColumn(p, ks, j);
      }
    }
    SameColumns(a, Overlay(r, after));
  }

  /** The user a new session is stamped with. */
  function CreatorFor(channel: Option<Channel>): UserId {
    if channel.Some? then channel.value.createdBy else AnonymousUser
  }

  /**
   * A row before `create` fills in the columns it is given: nullable
   * columns are empty; the placeholders of the other columns are always
   * overwritten by the reconciler, which gives all of them.
   */
  function Blank(id: SessionId): SessionRecord {
    SessionRecord(id, "", None, 0, None, 0, None, Initiated, None, None, AnonymousUser, AnonymousUser)
  }

  /** `kwargs.get('channel')`. */
  function ChannelGiven(p: Patch): Option<Channel> {
    if p.channel.Some? then p.channel.value else None
  }

  /**
   * The row `create(**p)` inserts with primary key `id`: the given columns
   * over the blank row, and the given channel's creator (or the anonymous
   * user) as both creator and last modifier.
   */
  function NewRecord(id: SessionId, p: Patch): (r: SessionRecord)
    ensures r.id == id
    ensures r.createdBy == r.modifiedBy
    ensures ChannelGiven(p).Some? ==> r.createdBy == ChannelGiven(p).value.createdBy
    ensures ChannelGiven(p).None? ==> r.createdBy == AnonymousUser
  {
    var u := CreatorFor(ChannelGiven(p));
    Overlay(Blank(id), p).(createdBy := u, modifiedBy := u)
  }

  /** The columns of a new row: the given ones, and the blank row's elsewhere. */
  lemma NewRecordColumns(id: SessionId, p: Patch)
    ensures forall k :: Get(NewRecord(id, p), k) == (if HasKey(p, k) then Entry(p, k) else Get(Blank(id), k))
  {
    OverlayColumns(Blank(id), p);
  }

  /** The table is kept in creation order: ids strictly increase and stay below `bound`. */
  predicate IdsOrdered(rows: seq<SessionRecord>, bound: SessionId) {
    (forall i, j :: 0 <= i < j < |rows| ==> rows[i].id < rows[j].id) &&
    (forall i :: 0 <= i < |rows| ==> rows[i].id < bound)
  }
}
