/** The in-memory patient list of the patients context: the record type, the
    five patients it starts from, partial update by id, append, and lookup. */
module Patients {
  import opened Wrappers
  import Lists

  datatype PaymentStatus = Paid | PaymentPending

  datatype Patient = Patient(
    id: string,
    hospitalId: string,
    firstName: string,
    lastName: string,
    email: string,
    phone: string,
    status: string,
    location: string,
    nextDeliveryDate: string,
    paymentStatus: PaymentStatus)

  /** A `Partial<Patient>`: `None` is a key the caller did not supply. */
  datatype PatientPatch = PatientPatch(
    id: Option<string>,
    hospitalId: Option<string>,
    firstName: Option<string>,
    lastName: Option<string>,
    email: Option<string>,
    phone: Option<string>,
    status: Option<string>,
    location: Option<string>,
    nextDeliveryDate: Option<string>,
    paymentStatus: Option<PaymentStatus>)

  /** The spread `{ ...p, ...data }`: every supplied key overwrites the old one. */
  function Merge(p: Patient, data: PatientPatch): Patient {
    Patient(
      data.id.GetOr(p.id),
      data.hospitalId.GetOr(p.hospitalId),
      data.firstName.GetOr(p.firstName),
      data.lastName.GetOr(p.lastName),
      data.email.GetOr(p.email),
      data.phone.GetOr(p.phone),
      data.status.GetOr(p.status),
      data.location.GetOr(p.location),
      data.nextDeliveryDate.GetOr(p.nextDeliveryDate),
      data.paymentStatus.GetOr(p.paymentStatus))
  }

  /** The list `updatePatient(id, data)` leaves behind: each record with that id
      becomes the old record overwritten by `data` (no time stamp is added);
      every other record stays as it was, in place. */
  function UpdateById(s: seq<Patient>, id: string, data: PatientPatch): (r: seq<Patient>)
    ensures |r| == |s|
    ensures forall i :: 0 <= i < |s| ==> r[i] == if s[i].id == id then Merge(s[i], data) else s[i]
  {
    Lists.MapWhere(s, HasId(id), Apply(data))
  }

  function HasId(id: string): Patient -> bool {
    (p: Patient) => p.id == id
  }

  function Apply(data: PatientPatch): Patient -> Patient {
    (p: Patient) => Merge(p, data)
  }

  /** `patients.find(p => p.id === id)`: the first patient with that id. */
  function GetPatient(s: seq<Patient>, id: string): (r: Option<Patient>)
    ensures r.None? <==> forall p :: p in s ==> p.id != id
    ensures r.Some? ==> exists i :: 0 <= i < |s| && s[i] == r.value && r.value.id == id && forall j :: 0 <= j < i ==> s[j].id != id
  {
    Lists.Find(s, HasId(id))
  }

  /** After `addPatient(p)` the patient can be looked up by its id, provided no
      earlier patient has that id (the first one would shadow it); lookups of
      any id already present are unaffected. */
  lemma GetAfterAdd(s: seq<Patient>, p: Patient, id: string)
    ensures GetPatient(s + [p], id) == if GetPatient(s, id).Some? then GetPatient(s, id) else if p.id == id then Some(p) else None
    ensures (forall q :: q in s ==> q.id != p.id) ==> GetPatient(s + [p], p.id) == Some(p)
  {
    Lists.FindAppend(s, p, HasId(id));
    Lists.FindAppend(s, p, HasId(p.id));
  }

  /** After `updatePatient(id, data)`, looking the id up gives the patient found
      before, overwritten by `data`, as long as `data` does not change the id. */
  lemma GetAfterUpdate(s: seq<Patient>, id: string, data: PatientPatch)
    requires data.id.None? || data.id == Some(id)
    ensures GetPatient(UpdateById(s, id, data), id) == if GetPatient(s, id).Some? then Some(Merge(GetPatient(s, id).value, data)) else None
  {
    Lists.FindAfterMapWhere(s, HasId(id), Apply(data));
  }

  /** The five patients the provider starts with. */
  function InitialPatients(): seq<Patient> {
    [ Patient("1", "HOS-2020-167", "John", "Doe", "john.doe@example.com", "+234-7084-2920",
              "Due & Past", "Lagos, Nigeria", "2020-09-12", Paid),
      Patient("2", "HOS-2020-168", "Jane", "Smith", "jane.smith@example.com", "+234-7084-2920",
              "Completed", "Abuja, Nigeria", "2020-09-12", Paid),
      Patient("3", "HOS-2020-169", "Michael", "Johnson", "michael.j@example.com", "+234-7084-2920",
              "Due & Elapsed", "Port Harcourt, Nigeria", "2020-09-12", PaymentPending),
      Patient("4", "HOS-2020-170", "Sarah", "Williams", "sarah.w@example.com", "+234-7084-2920",
              "Assigned", "Kano, Nigeria", "2020-09-12", PaymentPending),
      Patient("5", "WH/H/929", "Michael", "Adebola", "michael@example.com", "+234-7084-2920",
              "Assigned", "VI Lagos", "2020-09-12", PaymentPending) ]
  }

  /** The starting patients have pairwise distinct ids. */
  lemma InitialIdsDistinct()
    ensures forall i, j :: 0 <= i < j < |InitialPatients()| ==> InitialPatients()[i].id != InitialPatients()[j].id
  {
  }

  /** The provider's `patients` state cell and the operations that replace it. */
  class PatientStore {
    var patients: seq<Patient>

    constructor ()
      ensures patients == InitialPatients()
    {
      patients := InitialPatients();
    }

    /** `updatePatient(id, data)`. */
    method UpdatePatient(id: string, data: PatientPatch)
      modifies this
      ensures patients == UpdateById(old(patients), id, data)
    {
      patients := UpdateById(patients, id, data);
    }

    /** `addPatient(patient)`: appended at the end, with no duplicate-id check. */
    method AddPatient(patient: Patient)
      modifies this
      ensures patients == old(patients) + [patient]
    {
      patients := patients + [patient];
    }

    /** `getPatient(id)` over the current list. */
    function Get(id: string): (r: Option<Patient>)
      reads this
      ensures r.Some? ==> r.value in patients && r.value.id == id
      ensures r.None? <==> forall p :: p in patients ==> p.id != id
    {
      GetPatient(patients, id)
    }
  }
}
