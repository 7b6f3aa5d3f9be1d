/** The in-memory delivery list of the delivery context: the record type, the
    list it starts from, partial update by id (which also stamps the update
    time), append, and the per-patient query. */
module Deliveries {
  import opened Wrappers
  import Lists

  /** Every status a delivery takes anywhere in the code: the four the delivery
      record declares (`pending`, `in_transit`, `delivered`, `cancelled`) and the
      five the status helpers know (`unassigned`, `pending`, `in_progress`,
      `delivered`, `failed`). */
  datatype Status = Unassigned | Pending | InProgress | InTransit | Delivered | Failed | Cancelled

  /** The statuses the delivery record itself declares. */
  predicate IsRecordStatus(s: Status) {
    s == Pending || s == InTransit || s == Delivered || s == Cancelled
  }

  datatype Delivery = Delivery(
    id: string,
    patientId: string,
    date: string,
    items: seq<string>,
    status: Status,
    riderId: string,
    riderName: string,
    createdAt: string,
    updatedAt: string)

  /** A `Partial<Delivery>`: `None` is a key the caller did not supply. */
  datatype DeliveryPatch = DeliveryPatch(
    id: Option<string>,
    patientId: Option<string>,
    date: Option<string>,
    items: Option<seq<string>>,
    status: Option<Status>,
    riderId: Option<string>,
    riderName: Option<string>,
    createdAt: Option<string>,
    updatedAt: Option<string>)

  const NoChanges := DeliveryPatch(None, None, None, None, None, None, None, None, None)

  /** The spread `{ ...d, ...data }`: every supplied key overwrites the old one. */
  function Merge(d: Delivery, data: DeliveryPatch): Delivery {
    Delivery(
      data.id.GetOr(d.id),
      data.patientId.GetOr(d.patientId),
      data.date.GetOr(d.date),
      data.items.GetOr(d.items),
      data.status.GetOr(d.status),
      data.riderId.GetOr(d.riderId),
      data.riderName.GetOr(d.riderName),
      data.createdAt.GetOr(d.createdAt),
      data.updatedAt.GetOr(d.updatedAt))
  }

  /** The list `updateDelivery(id, data)` leaves behind, `now` being the ISO
      time the update runs at: every record with that id (all of them, as ids
      are not checked for uniqueness) becomes the old record overwritten by
      `data` with `updatedAt` set to `now`, even when `data` carries its own
      `updatedAt`; all other records stay as they were, in place. */
  function UpdateById(s: seq<Delivery>, id: string, data: DeliveryPatch, now: string): (r: seq<Delivery>)
    ensures |r| == |s|
    ensures forall i :: 0 <= i < |s| && s[i].id != id ==> r[i] == s[i]
    ensures forall i :: 0 <= i < |s| && s[i].id == id ==> r[i] == Merge(s[i], data).(updatedAt := now)
  {
    Lists.MapWhere(s, HasId(id), Stamped(data, now))
  }

  function HasId(id: string): Delivery -> bool {
    (d: Delivery) => d.id == id
  }

  /** One matching record after the update: merged, then stamped. */
  function Stamped(data: DeliveryPatch, now: string): Delivery -> Delivery {
    (d: Delivery) => Merge(d, data).(updatedAt := now)
  }

  /** An id no record carries leaves the list exactly as it was. */
  lemma UpdateUnknownId(s: seq<Delivery>, id: string, data: DeliveryPatch, now: string)
    requires forall d :: d in s ==> d.id != id
    ensures UpdateById(s, id, data, now) == s
  {
    var r := UpdateById(s, id, data, now);
    assert forall i :: 0 <= i < |s| ==> r[i] == s[i];
  }

  /** An update that supplies no keys still refreshes the stamp of the records
      it matches, and of nothing else. */
  lemma UpdateWithoutChangesOnlyStamps(s: seq<Delivery>, id: string, now: string, i: nat)
    requires i < |s|
    ensures UpdateById(s, id, NoChanges, now)[i] == if s[i].id == id then s[i].(updatedAt := now) else s[i]
  {
  }

  /** `deliveries.filter(d => d.patientId === patientId)`: exactly the records
      of that patient. */
  function ByPatient(s: seq<Delivery>, patientId: string): (r: seq<Delivery>)
    ensures forall d :: d in r <==> d in s && d.patientId == patientId
  {
    Lists.Filter(s, OfPatient(patientId))
  }

  function OfPatient(patientId: string): Delivery -> bool {
    (d: Delivery) => d.patientId == patientId
  }

  /** A delivery added to the list shows up last in its own patient's query
      and in no other patient's; earlier results keep their order. */
  lemma ByPatientAfterAdd(s: seq<Delivery>, d: Delivery, patientId: string)
    ensures ByPatient(s + [d], patientId) == ByPatient(s, patientId) + (if d.patientId == patientId then [d] else [])
  {
    Lists.FilterAppend(s, [d], OfPatient(patientId));
    assert Lists.Filter([d], OfPatient(patientId)) == (if d.patientId == patientId then [d] else []) + Lists.Filter([d][1..], OfPatient(patientId));
  }

  /** An update that does not touch `patientId` leaves the number of records
      each patient has unchanged. */
  lemma {:induction false} UpdateKeepsPatientCounts(s: seq<Delivery>, id: string, data: DeliveryPatch, now: string, patientId: string)
    requires data.patientId.None?
    ensures |ByPatient(UpdateById(s, id, data, now), patientId)| == |ByPatient(s, patientId)|
  {
    if s != [] {
      var r := UpdateById(s, id, data, now);
      UpdateKeepsPatientCounts(s[1..], id, data, now, patientId);
      assert r[1..] == UpdateById(s[1..], id, data, now);
      assert r[0].patientId == s[0].patientId;
    }
  }

  /** The three deliveries the provider starts with. */
  function InitialDeliveries(): seq<Delivery> {
    [ Delivery("1", "1", "2025-03-14", ["Paracetamol", "Vitamin C"], Delivered, "1", "John Doe",
               "2025-03-14T08:00:00Z", "2025-03-14T10:30:00Z"),
      Delivery("2", "1", "2025-03-01", ["Amoxicillin"], Delivered, "2", "Jane Smith",
               "2025-03-01T09:00:00Z", "2025-03-01T11:45:00Z"),
      Delivery("3", "1", "2025-03-15", ["Insulin", "Syringes"], InTransit, "1", "John Doe",
               "2025-03-15T07:30:00Z", "2025-03-15T08:15:00Z") ]
  }

  /** The starting records use only the statuses the record type declares, and
      all belong to patient "1". */
  lemma InitialDeliveriesShape()
    ensures forall d :: d in InitialDeliveries() ==> IsRecordStatus(d.status)
    ensures ByPatient(InitialDeliveries(), "1") == InitialDeliveries()
  {
    Lists.FilterKeepsAll(InitialDeliveries(), OfPatient("1"));
  }

  /** The provider's `deliveries` state cell and the operations that replace it. */
  class DeliveryStore {
    var deliveries: seq<Delivery>

    constructor ()
      ensures deliveries == InitialDeliveries()
    {
      deliveries := InitialDeliveries();
    }

    /** `updateDelivery(id, data)`, run at ISO time `now`. */
    method UpdateDelivery(id: string, data: DeliveryPatch, now: string)
      modifies this
      ensures deliveries == UpdateById(old(deliveries), id, data, now)
    {
      deliveries := UpdateById(deliveries, id, data, now);
    }

    /** `addDelivery(delivery)`: appended at the end, with no duplicate-id check. */
    method AddDelivery(delivery: Delivery)
      modifies this
      ensures deliveries == old(deliveries) + [delivery]
    {
      deliveries := deliveries + [delivery];
    }

    /** `getDeliveriesByPatient(patientId)` over the current list. */
    function GetDeliveriesByPatient(patientId: string): (r: seq<Delivery>)
      reads this
      ensures forall d :: d in r <==> d in deliveries && d.patientId == patientId
    {
      ByPatient(deliveries, patientId)
    }
  }
}
