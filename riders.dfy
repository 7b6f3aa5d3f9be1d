/** The in-memory rider list of the rider context: the record type, the two
    riders it starts from, partial update by id, append, and lookup. */
module Riders {
  import opened Wrappers
  import Lists

  datatype RiderStatus = Active | Inactive | Busy

  datatype Rider = Rider(
    id: string,
    name: string,
    email: string,
    phone: string,
    rating: real,
    totalDeliveries: int,
    status: RiderStatus,
    avatar: Option<string>)

  /** A `Partial<Rider>`: `None` is a key the caller did not supply; a supplied
      `avatar` sets it. */
  datatype RiderPatch = RiderPatch(
    id: Option<string>,
    name: Option<string>,
    email: Option<string>,
    phone: Option<string>,
    rating: Option<real>,
    totalDeliveries: Option<int>,
    status: Option<RiderStatus>,
    avatar: Option<string>)

  /** The spread `{ ...r, ...data }`: every supplied key overwrites the old one. */
  function Merge(r: Rider, data: RiderPatch): Rider {
    Rider(
      data.id.GetOr(r.id),
      data.name.GetOr(r.name),
      data.email.GetOr(r.email),
      data.phone.GetOr(r.phone),
      data.rating.GetOr(r.rating),
      data.totalDeliveries.GetOr(r.totalDeliveries),
      data.status.GetOr(r.status),
      if data.avatar.Some? then data.avatar else r.avatar)
  }

  /** The list `updateRider(id, data)` leaves behind: each rider with that id
      becomes the old rider overwritten by `data`; every other rider stays as it
      was, in place. */
  function UpdateById(s: seq<Rider>, id: string, data: RiderPatch): (r: seq<Rider>)
    ensures |r| == |s|
    ensures forall i :: 0 <= i < |s| ==> r[i] == if s[i].id == id then Merge(s[i], data) else s[i]
  {
    Lists.MapWhere(s, HasId(id), Apply(data))
  }

  function HasId(id: string): Rider -> bool {
    (r: Rider) => r.id == id
  }

  function Apply(data: RiderPatch): Rider -> Rider {
    (r: Rider) => Merge(r, data)
  }

  /** `riders.find(r => r.id === id)`: the first rider with that id. */
  function GetRider(s: seq<Rider>, id: string): (r: Option<Rider>)
    ensures r.None? <==> forall x :: x in s ==> x.id != id
    ensures r.Some? ==> exists i :: 0 <= i < |s| && s[i] == r.value && r.value.id == id && forall j :: 0 <= j < i ==> s[j].id != id
  {
    Lists.Find(s, HasId(id))
  }

  /** `addRider` does not check for duplicates: adding a rider whose id is
      already taken lengthens the list, yet lookup still returns the earlier rider. */
  lemma DuplicateAddIsShadowed(s: seq<Rider>, x: Rider)
    requires exists y :: y in s && y.id == x.id
    ensures GetRider(s + [x], x.id) == GetRider(s, x.id) && GetRider(s, x.id).Some?
  {
    Lists.FindAppend(s, x, HasId(x.id));
  }

  /** Adding a rider with a fresh id makes it the answer to its own lookup. */
  lemma GetAfterFreshAdd(s: seq<Rider>, x: Rider)
    requires forall y :: y in s ==> y.id != x.id
    ensures GetRider(s + [x], x.id) == Some(x)
  {
    Lists.FindAppend(s, x, HasId(x.id));
  }

  /** After `updateRider(id, data)`, looking the id up gives the rider found
      before, overwritten by `data`, as long as `data` does not change the id. */
  lemma GetAfterUpdate(s: seq<Rider>, id: string, data: RiderPatch)
    requires data.id.None? || data.id == Some(id)
    ensures GetRider(UpdateById(s, id, data), id) == if GetRider(s, id).Some? then Some(Merge(GetRider(s, id).value, data)) else None
  {
    Lists.FindAfterMapWhere(s, HasId(id), Apply(data));
  }

  /** An update leaves the set of ids alone unless it supplies a new id. */
  lemma UpdateKeepsIds(s: seq<Rider>, id: string, data: RiderPatch)
    requires data.id.None?
    ensures forall i :: 0 <= i < |s| ==> UpdateById(s, id, data)[i].id == s[i].id
  {
  }

  /** The two riders the provider starts with. */
  function InitialRiders(): seq<Rider> {
    [ Rider("1", "John Doe", "john.doe@example.com", "+2348123456789", 4.8, 156, Active, None),
      Rider("2", "Jane Smith", "jane.smith@example.com", "+2348123456790", 4.9, 203, Busy, None) ]
  }

  /** The starting riders have distinct ids, and each is found by its id. */
  lemma InitialRidersDistinct()
    ensures InitialRiders()[0].id != InitialRiders()[1].id
    ensures GetRider(InitialRiders(), "2") == Some(InitialRiders()[1])
  {
    assert HasId("2")(InitialRiders()[1]);
    assert !HasId("2")(InitialRiders()[0]);
  }

  /** The provider's `riders` state cell and the operations that replace it. */
  class RiderStore {
    var riders: seq<Rider>

    constructor ()
      ensures riders == InitialRiders()
    {
      riders := InitialRiders();
    }

    /** `updateRider(id, data)`. */
    method UpdateRider(id: string, data: RiderPatch)
      modifies this
      ensures riders == UpdateById(old(riders), id, data)
    {
      riders := UpdateById(riders, id, data);
    }

    /** `addRider(rider)`: appended at the end, with no duplicate-id check. */
    method AddRider(rider: Rider)
      modifies this
      ensures riders == old(riders) + [rider]
    {
      riders := riders + [rider];
    }

    /** `getRider(id)` over the current list. */
    function Get(id: string): (r: Option<Rider>)
      reads this
      ensures r.Some? ==> r.value in riders && r.value.id == id
      ensures r.None? <==> forall x :: x in riders ==> x.id != id
    {
      GetRider(riders, id)
    }
  }
}
