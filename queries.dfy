/**
 * The lookups of `USSDQuerySet`, as filters over the session table in
 * table order. The table is kept in primary-key order, so "first" is the
 * Django `.first()` of an unordered queryset.
 */
module Queries {
  import opened Wrappers
  import opened Statuses
  import opened Records

  /** The index of the first row satisfying `p`, if any. */
  function FirstWhere(rows: seq<SessionRecord>, p: SessionRecord -> bool): (r: Option<nat>)
    ensures r.Some? ==> r.value < |rows| && p(rows[r.value])
    ensures r.Some? ==> forall j :: 0 <= j < r.value ==> !p(rows[j])
    ensures r.None? <==> forall j :: 0 <= j < |rows| ==> !p(rows[j])
  {
    if rows == [] then None
    else if p(rows[0]) then Some(0)
    else match FirstWhere(rows[1..], p)
      case None => None
      case Some(i) => Some(i + 1)
  }

  /** The indices of all rows satisfying `p`, in increasing order. */
  function AllWhere(rows: seq<SessionRecord>, p: SessionRecord -> bool): (ix: seq<nat>)
    ensures forall k :: k in ix ==> k < |rows|
    ensures forall k :: 0 <= k < |rows| ==> (k in ix <==> p(rows[k]))
    ensures forall a, b :: 0 <= a < b < |ix| ==> ix[a] < ix[b]
  {
    if rows == [] then []
    else
      var init := AllWhere(rows[..|rows| - 1], p);
      assert forall a :: 0 <= a < |init| ==> init[a] in init && init[a] < |rows| - 1;
      init + (if p(rows[|rows| - 1]) then [|rows| - 1] else [])
  }

  /** What Django's `.get` does: one row, none, or too many. */
  datatype GetResult = DoesNotExist | Found(index: nat) | MultipleObjectsReturned

  function GetWhere(rows: seq<SessionRecord>, p: SessionRecord -> bool): (g: GetResult)
    ensures g.DoesNotExist? <==> forall j :: 0 <= j < |rows| ==> !p(rows[j])
    ensures g.Found? ==> g.index < |rows| && p(rows[g.index])
    ensures g.Found? ==> forall j :: 0 <= j < |rows| && j != g.index ==> !p(rows[j])
    ensures g.MultipleObjectsReturned? ==>
              exists a, b :: 0 <= a < b < |rows| && p(rows[a]) && p(rows[b])
  {
    var ix := AllWhere(rows, p);
    if |ix| == 0 then
      assert forall j :: 0 <= j < |rows| ==> j !in ix;
      DoesNotExist
    else if |ix| == 1 then
      assert ix[0] in ix;
      Found(ix[0])
    else
      assert ix[0] in ix && ix[1] in ix;
      MultipleObjectsReturned
  }

  predicate IsInitiatedPush(r: SessionRecord, contact: ContactId) {
    r.direction == Some(Push) && r.status == Initiated && r.contact == contact
  }

  /** An open (not done) session carrying the gateway's session id. */
  predicate IsOpenWith(r: SessionRecord, externalId: ExternalId) {
    !IsDone(r.status) && r.externalId == externalId
  }

  /** `get_initiated_push_session`: the first INITIATED PUSH session of the contact. */
  function InitiatedPushSession(rows: seq<SessionRecord>, contact: ContactId): (r: Option<nat>)
    ensures r.Some? ==> r.value < |rows| && IsInitiatedPush(rows[r.value], contact)
    ensures r.Some? ==> forall j :: 0 <= j < r.value ==> !IsInitiatedPush(rows[j], contact)
    ensures r.None? <==> forall j :: 0 <= j < |rows| ==> !IsInitiatedPush(rows[j], contact)
  {
    FirstWhere(rows, (s: SessionRecord) => IsInitiatedPush(s, contact))
  }

  /** `get_session_by_external_id`: the first session with that id whose status is not done. */
  function SessionByExternalId(rows: seq<SessionRecord>, externalId: ExternalId): (r: Option<nat>)
    ensures r.Some? ==> r.value < |rows| && IsOpenWith(rows[r.value], externalId)
    ensures r.Some? ==> forall j :: 0 <= j < r.value ==> !IsOpenWith(rows[j], externalId)
    ensures r.None? <==> forall j :: 0 <= j < |rows| ==> !IsOpenWith(rows[j], externalId)
  {
    FirstWhere(rows, (s: SessionRecord) => IsOpenWith(s, externalId))
  }

  /** `exclude(status__in=DONE).get(external_id=...)`: the one open session with that id. */
  function OpenByExternalId(rows: seq<SessionRecord>, externalId: ExternalId): (g: GetResult)
    ensures g.DoesNotExist? <==> forall j :: 0 <= j < |rows| ==> !IsOpenWith(rows[j], externalId)
    ensures g.Found? ==> g.index < |rows| && IsOpenWith(rows[g.index], externalId)
    ensures g.Found? ==> forall j :: 0 <= j < |rows| && j != g.index ==> !IsOpenWith(rows[j], externalId)
    ensures g.MultipleObjectsReturned? ==>
              exists a, b :: 0 <= a < b < |rows| && IsOpenWith(rows[a], externalId) && IsOpenWith(rows[b], externalId)
  {
    GetWhere(rows, (s: SessionRecord) => IsOpenWith(s, externalId))
  }
}
