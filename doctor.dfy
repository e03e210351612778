/** The doctor routes (backend/src/routes/doctor.js): the prescription ledger's
    create-with-supersession, the doctor's patient list and patient lookups, and
    the doctor side of the change-request mailbox. Every route sits behind
    `Gate.DoctorGate`; `caller` is the identity it attached. */
module DoctorRoutes {
  import opened Common
  import opened Query
  import opened Store
  import opened Gate

  // ---------------------------------------------------------------------------
  // POST /prescriptions

  /** The body's `expiresAt`: absent or empty, text `new Date` reads as the
      given timestamp, or text it reads as an Invalid Date, which the insert
      rejects. */
  datatype Expiry = NoExpiry | ExpiresAt(at: int) | InvalidDate

  /** The column `expiresAt ? new Date(expiresAt) : null` writes. */
  function ExpiryDate(e: Expiry): Option<int>
    requires !e.InvalidDate?
  {
    if e.ExpiresAt? then Some(e.at) else None
  }

  /** The request body; `patientId` is None when absent or empty. */
  datatype PrescriptionInput = PrescriptionInput(
    patientId: Option<Id>, medicationName: Field, dosage: Field, frequency: Field, duration: Field,
    notes: Field, expiresAt: Expiry)

  const REQUIRED_FIELDS: string := "Patient, medication name, dosage, frequency, and duration are required"
  const CREATE_FAILED: string := "Failed to create prescription"

  predicate MissingRequired(input: PrescriptionInput) {
    || input.patientId.None? || !Truthy(input.medicationName) || !Truthy(input.dosage)
    || !Truthy(input.frequency) || !Truthy(input.duration)
  }

  /** The body passes the checks of lines 140-148, so the writes begin. */
  predicate Admitted(doctors: seq<Doctor>, patients: seq<Patient>, caller: Claims, input: PrescriptionInput) {
    && !MissingRequired(input)
    && DoctorByUser(doctors, caller.userId).Some?
    && PatientById(patients, input.patientId.value).Some?
  }

  /** The rows the `updateMany` of a create rewrites. */
  predicate Superseded(rx: Prescription, patientId: Id, medicationName: string) {
    rx.patientId == patientId && rx.medicationName == medicationName && rx.status == ACTIVE
  }

  /** The `updateMany`: every ACTIVE prescription of the patient for exactly this
      medication name becomes REPLACED; every other row is left as it was. */
  function Supersede(rxs: seq<Prescription>, patientId: Id, medicationName: string): (r: seq<Prescription>)
    ensures |r| == |rxs|
    ensures forall i :: 0 <= i < |rxs| && Superseded(rxs[i], patientId, medicationName) ==>
              r[i] == rxs[i].(status := REPLACED)
    ensures forall i :: 0 <= i < |rxs| && !Superseded(rxs[i], patientId, medicationName) ==>
              r[i] == rxs[i]
    ensures forall i :: 0 <= i < |r| ==> !Superseded(r[i], patientId, medicationName)
    ensures forall i :: 0 <= i < |r| ==> r[i].id == rxs[i].id
  {
    seq(|rxs|, i requires 0 <= i < |rxs| =>
      if Superseded(rxs[i], patientId, medicationName) then rxs[i].(status := REPLACED) else rxs[i])
  }

  /** The record `prescription.create` inserts, after the checks of lines
      140-148; an Invalid Date makes the insert throw into the catch (500). */
  function NewPrescription(
    doctors: seq<Doctor>, patients: seq<Patient>, caller: Claims, input: PrescriptionInput,
    id: Id, now: int): (r: Result<Prescription>)
    ensures MissingRequired(input) ==> r == Err(BadRequest(REQUIRED_FIELDS))
    ensures !MissingRequired(input) && DoctorByUser(doctors, caller.userId).None? ==>
              r == Err(NotFound("Doctor profile not found"))
    ensures !MissingRequired(input) && DoctorByUser(doctors, caller.userId).Some? &&
            PatientById(patients, input.patientId.value).None? ==>
              r == Err(NotFound("Patient not found"))
    ensures Admitted(doctors, patients, caller, input) && input.expiresAt.InvalidDate? ==>
              r == Err(ServerError(CREATE_FAILED))
    ensures r.Ok? ==>
              && Admitted(doctors, patients, caller, input)
              && !input.expiresAt.InvalidDate?
              && r.value.id == id
              && r.value.patientId == input.patientId.value
              && r.value.doctorId == DoctorByUser(doctors, caller.userId).value.id
              && r.value.medicationName == input.medicationName.value
              && r.value.dosage == input.dosage.value
              && r.value.frequency == input.frequency.value
              && r.value.duration == input.duration.value
              && (Truthy(input.notes) ==> r.value.notes == input.notes.value)
              && (!Truthy(input.notes) ==> r.value.notes == "")
              && r.value.expiresAt == ExpiryDate(input.expiresAt)
              && r.value.status == ACTIVE
              && r.value.prescribedAt == now
  {
    if MissingRequired(input) then Err(BadRequest(REQUIRED_FIELDS))
    else match DoctorByUser(doctors, caller.userId)
      case None => Err(NotFound("Doctor profile not found"))
      case Some(doctor) =>
        match PatientById(patients, input.patientId.value)
        case None => Err(NotFound("Patient not found"))
        case Some(_) =>
          if input.expiresAt.InvalidDate? then Err(ServerError(CREATE_FAILED))
          else Ok(Prescription(
            id, input.patientId.value, doctor.id,
            input.medicationName.value, input.dosage.value, input.frequency.value, input.duration.value,
            OrElse(input.notes, ""), ACTIVE, now, ExpiryDate(input.expiresAt)))
  }

  /** Superseding the course and then inserting a new ACTIVE prescription for it
      keeps at most one ACTIVE prescription per (patient, medicationName). */
  lemma {:induction false} CreateKeepsAtMostOneActive(rxs: seq<Prescription>, rx: Prescription)
    requires AtMostOneActive(rxs)
    ensures AtMostOneActive(Supersede(rxs, rx.patientId, rx.medicationName) + [rx])
  {
    var s := Supersede(rxs, rx.patientId, rx.medicationName);
    var t := s + [rx];
    forall i, j | 0 <= i < j < |t| && t[i].status == ACTIVE && t[j].status == ACTIVE
      ensures !SameCourse(t[i], t[j])
    {
      if j < |s| {
        assert t[i] == rxs[i] && t[j] == rxs[j];
      } else {
        assert t[j] == rx && t[i] == s[i];
        assert !Superseded(s[i], rx.patientId, rx.medicationName);
      }
    }
  }

  /** The `updateMany` alone keeps at most one ACTIVE prescription per course:
      it only ever takes rows out of ACTIVE. */
  lemma SupersedeKeepsAtMostOneActive(rxs: seq<Prescription>, patientId: Id, medicationName: string)
    requires AtMostOneActive(rxs)
    ensures AtMostOneActive(Supersede(rxs, patientId, medicationName))
  {
    var s := Supersede(rxs, patientId, medicationName);
    forall i, j | 0 <= i < j < |s| && s[i].status == ACTIVE && s[j].status == ACTIVE
      ensures !SameCourse(s[i], s[j])
    {
      assert s[i] == rxs[i] && s[j] == rxs[j];
    }
  }

  /** After a create, the new prescription is the only ACTIVE one of its course. */
  lemma CreateLeavesOnlyNewActive(rxs: seq<Prescription>, rx: Prescription)
    ensures var t := Supersede(rxs, rx.patientId, rx.medicationName) + [rx];
      forall i :: 0 <= i < |t| - 1 && SameCourse(t[i], rx) ==> t[i].status != ACTIVE
  {
  }

  /** The `updateMany` of a create, as a write to the store. */
  method ReplaceCourse(db: Db, patientId: Id, medicationName: string)
    requires db.Valid()
    modifies db
    ensures db.Valid()
    ensures db.prescriptions == Supersede(old(db.prescriptions), patientId, medicationName)
    ensures db.nextId == old(db.nextId)
    ensures db.users == old(db.users) && db.doctors == old(db.doctors) && db.patients == old(db.patients)
    ensures db.changeRequests == old(db.changeRequests)
  {
    SupersedeKeepsAtMostOneActive(db.prescriptions, patientId, medicationName);
    db.prescriptions := Supersede(db.prescriptions, patientId, medicationName);
  }

  /** The `create` of a prescription that takes the next id when the ledger
      invariant allows it. */
  method InsertPrescription(db: Db, rx: Prescription)
    requires db.Valid()
    requires rx.id == db.nextId && AtMostOneActive(db.prescriptions + [rx])
    modifies db
    ensures db.Valid()
    ensures db.prescriptions == old(db.prescriptions) + [rx] && db.nextId == old(db.nextId) + 1
    ensures db.users == old(db.users) && db.doctors == old(db.doctors) && db.patients == old(db.patients)
    ensures db.changeRequests == old(db.changeRequests)
  {
    UniqueAppend(db.prescriptions, rx, RxIdOf);
    db.prescriptions := db.prescriptions + [rx];
    db.nextId := db.nextId + 1;
  }

  /** `POST /prescriptions`: validate, look up the doctor and the patient,
      supersede the prior course (`updateMany`), then insert (`create`). When
      the insert throws on an Invalid Date, the supersession is already
      committed: the answer is 500 and the course is left with no ACTIVE row. */
  method CreatePrescription(db: Db, caller: Claims, input: PrescriptionInput, now: int)
    returns (r: Result<Prescription>)
    requires db.Valid()
    modifies db
    ensures db.Valid()
    ensures r == NewPrescription(old(db.doctors), old(db.patients), caller, input, old(db.nextId), now)
    ensures !Admitted(old(db.doctors), old(db.patients), caller, input) ==> unchanged(db)
    ensures Admitted(old(db.doctors), old(db.patients), caller, input) && input.expiresAt.InvalidDate? ==>
              var patientId, medicationName := input.patientId.value, input.medicationName.value;
              && db.prescriptions == Supersede(old(db.prescriptions), patientId, medicationName)
              && (forall i :: 0 <= i < |db.prescriptions| ==>
                    !Superseded(db.prescriptions[i], patientId, medicationName))
              && db.nextId == old(db.nextId)
              && db.users == old(db.users) && db.doctors == old(db.doctors) && db.patients == old(db.patients)
              && db.changeRequests == old(db.changeRequests)
    ensures r.Ok? ==>
              && db.prescriptions ==
                   Supersede(old(db.prescriptions), r.value.patientId, r.value.medicationName) + [r.value]
              && db.nextId == old(db.nextId) + 1
              && db.users == old(db.users) && db.doctors == old(db.doctors) && db.patients == old(db.patients)
              && db.changeRequests == old(db.changeRequests)
  {
    if MissingRequired(input) {
      return Err(BadRequest(REQUIRED_FIELDS));
    }
    var doctor := DoctorByUser(db.doctors, caller.userId);
    if doctor.None? {
      return Err(NotFound("Doctor profile not found"));
    }
    var patient := PatientById(db.patients, input.patientId.value);
    if patient.None? {
      return Err(NotFound("Patient not found"));
    }
    var patientId, medicationName := input.patientId.value, input.medicationName.value;
    ghost var before := db.prescriptions;
    ReplaceCourse(db, patientId, medicationName);
    if input.expiresAt.InvalidDate? {
      return Err(ServerError(CREATE_FAILED));
    }
    var rx := Prescription(
      db.nextId, patientId, doctor.value.id,
      medicationName, input.dosage.value, input.frequency.value, input.duration.value,
      OrElse(input.notes, ""), ACTIVE, now, ExpiryDate(input.expiresAt));
    CreateKeepsAtMostOneActive(before, rx);
    InsertPrescription(db, rx);
    r := Ok(rx);
  }

  // ---------------------------------------------------------------------------
  // GET /patients

  /** A listed patient with the included email and at most one prescription. */
  datatype PatientEntry = PatientEntry(patient: Patient, email: Option<string>, prescriptions: seq<Prescription>)

  /** `term` occurs in `s` (the `contains` filter, case-sensitive). */
  predicate Contains(s: string, term: string) {
    StartsWith(s, term) || (s != [] && Contains(s[1..], term))
  }

  /** `term` stands in `s` at position `k`. */
  predicate OccursAt(s: string, term: string, k: nat) {
    k + |term| <= |s| && s[k..k + |term|] == term
  }

  /** `Contains` is the substring test: the term stands somewhere in the text. */
  lemma {:induction false} ContainsIsSubstring(s: string, term: string)
    ensures Contains(s, term) <==> exists k: nat :: OccursAt(s, term, k)
  {
    if StartsWith(s, term) {
      assert OccursAt(s, term, 0);
    } else if s == [] {
    } else {
      ContainsIsSubstring(s[1..], term);
      if exists k: nat :: OccursAt(s, term, k) {
        var k: nat :| OccursAt(s, term, k);
        assert k != 0;
        assert s[1..][k - 1..k - 1 + |term|] == s[k..k + |term|];
        assert OccursAt(s[1..], term, k - 1);
      }
      if Contains(s[1..], term) {
        var k: nat :| OccursAt(s[1..], term, k);
        assert s[k + 1..k + 1 + |term|] == s[1..][k..k + |term|];
        assert OccursAt(s, term, k + 1);
      }
    }
  }

  predicate Matches(p: Patient, term: string) {
    Contains(p.name, term) || Contains(p.uniquePatientId, term)
  }

  predicate Prescribes(rx: Prescription, doctorId: Id, patientId: Id) {
    rx.doctorId == doctorId && rx.patientId == patientId
  }

  /** The included `prescriptions: { where: { doctorId }, orderBy: { prescribedAt: 'desc' }, take: 1 }`. */
  function LatestFrom(rxs: seq<Prescription>, doctorId: Id, patientId: Id): (r: seq<Prescription>)
    ensures |r| <= 1
    ensures r == [] <==> forall x :: x in rxs ==> !Prescribes(x, doctorId, patientId)
    ensures r != [] ==> r[0] in rxs && Prescribes(r[0], doctorId, patientId)
    ensures r != [] ==> forall x :: x in rxs && Prescribes(x, doctorId, patientId) ==>
              x.prescribedAt <= r[0].prescribedAt
  {
    var mine := Filter(rxs, (x: Prescription) => Prescribes(x, doctorId, patientId));
    var sorted := NewestFirst(mine, (x: Prescription) => x.prescribedAt);
    assert forall x :: x in mine <==> x in sorted by {
      forall x ensures x in mine <==> x in sorted {
        assert x in mine <==> x in multiset(mine);
        assert x in sorted <==> x in multiset(sorted);
      }
    }
    if sorted == [] then []
    else
      assert forall x :: x in sorted ==> x.prescribedAt <= sorted[0].prescribedAt by {
        forall x | x in sorted ensures x.prescribedAt <= sorted[0].prescribedAt {
          var k :| 0 <= k < |sorted| && sorted[k] == x;
        }
      }
      [sorted[0]]
  }

  /** The distinct patient ids of a doctor's prescriptions (lines 73-79). */
  function DistinctPatientIds(rxs: seq<Prescription>, doctorId: Id): (ids: seq<Id>)
    ensures forall id :: id in ids <==> exists x :: x in rxs && Prescribes(x, doctorId, id)
    ensures forall i, j :: 0 <= i < j < |ids| ==> ids[i] != ids[j]
  {
    if rxs == [] then []
    else
      var rest := DistinctPatientIds(rxs[1..], doctorId);
      assert forall x :: x in rxs <==> x == rxs[0] || x in rxs[1..];
      if rxs[0].doctorId == doctorId && rxs[0].patientId !in rest then
        assert Prescribes(rxs[0], doctorId, rxs[0].patientId);
        [rxs[0].patientId] + rest
      else rest
  }

  function Entries(users: seq<User>, rxs: seq<Prescription>, doctorId: Id, ps: seq<Patient>): (r: seq<PatientEntry>)
    ensures |r| == |ps|
    ensures forall i :: 0 <= i < |ps| ==>
              r[i] == PatientEntry(ps[i], EmailOfUser(users, ps[i].userId), LatestFrom(rxs, doctorId, ps[i].id))
  {
    seq(|ps|, i requires 0 <= i < |ps| =>
      PatientEntry(ps[i], EmailOfUser(users, ps[i].userId), LatestFrom(rxs, doctorId, ps[i].id)))
  }

  /** The patients a listing selects: the search matches when a term is given,
      otherwise the patients this doctor has prescribed to. */
  predicate Listed(p: Patient, rxs: seq<Prescription>, doctorId: Id, search: Field) {
    if Truthy(search) then Matches(p, search.value)
    else exists x :: x in rxs && Prescribes(x, doctorId, p.id)
  }

  function ListedPatients(es: seq<PatientEntry>): (ps: seq<Patient>)
    ensures |ps| == |es| && forall i :: 0 <= i < |es| ==> ps[i] == es[i].patient
  {
    seq(|es|, i requires 0 <= i < |es| => es[i].patient)
  }

  /** `GET /patients`: with a search term, every patient whose name or
      uniquePatientId contains it, whoever prescribed to them; without one,
      exactly the patients with a prescription from this doctor. Sorted by name;
      each entry carries only this doctor's most recent prescription. */
  function ListPatients(
    doctors: seq<Doctor>, users: seq<User>, patients: seq<Patient>, rxs: seq<Prescription>,
    caller: Claims, search: Field): (r: Result<seq<PatientEntry>>)
    ensures r.Err? <==> DoctorByUser(doctors, caller.userId).None?
    ensures r.Err? ==> r.error == NotFound("Doctor profile not found")
    ensures r.Ok? ==> var doctorId := DoctorByUser(doctors, caller.userId).value.id;
              && Selects(ListedPatients(r.value), patients, (p: Patient) => Listed(p, rxs, doctorId, search))
              && (forall i, j :: 0 <= i < j < |r.value| ==>
                    LexLe(r.value[i].patient.name, r.value[j].patient.name))
              && (forall i :: 0 <= i < |r.value| ==>
                    r.value[i].prescriptions == LatestFrom(rxs, doctorId, r.value[i].patient.id) &&
                    r.value[i].email == EmailOfUser(users, r.value[i].patient.userId))
  {
    match DoctorByUser(doctors, caller.userId)
    case None => Err(NotFound("Doctor profile not found"))
    case Some(doctor) =>
      var selected := SelectPatients(patients, rxs, doctor.id, search);
      var sorted := ByNameAscending(selected, (p: Patient) => p.name);
      SelectsPermutation(selected, sorted, patients, (p: Patient) => Listed(p, rxs, doctor.id, search));
      var es := Entries(users, rxs, doctor.id, sorted);
      assert ListedPatients(es) == sorted;
      Ok(es)
  }

  /** The `where` of the two queries (lines 54-60 and 79-82). */
  function SelectPatients(patients: seq<Patient>, rxs: seq<Prescription>, doctorId: Id, search: Field)
    : (selected: seq<Patient>)
    ensures Selects(selected, patients, (p: Patient) => Listed(p, rxs, doctorId, search))
  {
    if Truthy(search) then
      var matches := (p: Patient) => Matches(p, search.value);
      var selected := Filter(patients, matches);
      FilterSelects(patients, matches);
      SelectsSamePredicate(selected, patients, matches, (p: Patient) => Listed(p, rxs, doctorId, search));
      selected
    else
      var patientIds := DistinctPatientIds(rxs, doctorId);
      var prescribed := (p: Patient) => p.id in patientIds;
      var selected := Filter(patients, prescribed);
      FilterSelects(patients, prescribed);
      SelectsSamePredicate(selected, patients, prescribed, (p: Patient) => Listed(p, rxs, doctorId, search));
      selected
  }

  // ---------------------------------------------------------------------------
  // GET /patients/find/:uniquePatientId and GET /patients/:id

  /** A patient with every prescription (from any doctor) and every change
      request, newest first. */
  datatype PatientRecord = PatientRecord(
    patient: Patient, email: Option<string>, prescriptions: seq<Prescription>, changeRequests: seq<ChangeRequest>)

  function Record(users: seq<User>, rxs: seq<Prescription>, crs: seq<ChangeRequest>, p: Patient): (r: PatientRecord)
    ensures r.patient == p && r.email == EmailOfUser(users, p.userId)
    ensures Selects(r.prescriptions, rxs, (x: Prescription) => x.patientId == p.id)
    ensures forall i, j :: 0 <= i < j < |r.prescriptions| ==>
              r.prescriptions[i].prescribedAt >= r.prescriptions[j].prescribedAt
    ensures Selects(r.changeRequests, crs, (cr: ChangeRequest) => cr.patientId == p.id)
    ensures forall i, j :: 0 <= i < j < |r.changeRequests| ==>
              r.changeRequests[i].createdAt >= r.changeRequests[j].createdAt
  {
    FilterSelects(rxs, (x: Prescription) => x.patientId == p.id);
    FilterSelects(crs, (cr: ChangeRequest) => cr.patientId == p.id);
    PatientRecord(
      p, EmailOfUser(users, p.userId),
      NewestFirst(Filter(rxs, (x: Prescription) => x.patientId == p.id), (x: Prescription) => x.prescribedAt),
      NewestFirst(Filter(crs, (cr: ChangeRequest) => cr.patientId == p.id), (cr: ChangeRequest) => cr.createdAt))
  }

  /** `GET /patients/find/:uniquePatientId`, open to every doctor. */
  function FindPatient(
    users: seq<User>, patients: seq<Patient>, rxs: seq<Prescription>, crs: seq<ChangeRequest>,
    uniquePatientId: string): (r: Result<PatientRecord>)
    ensures r.Err? <==> PatientByUniqueId(patients, uniquePatientId).None?
    ensures r.Err? ==> r.error == NotFound("No patient found with that ID. Make sure the patient has registered first.")
    ensures r.Ok? ==> r.value.patient in patients && r.value.patient.uniquePatientId == uniquePatientId
    ensures r.Ok? ==> r.value == Record(users, rxs, crs, r.value.patient)
  {
    match PatientByUniqueId(patients, uniquePatientId)
    case None => Err(NotFound("No patient found with that ID. Make sure the patient has registered first."))
    case Some(p) => Ok(Record(users, rxs, crs, p))
  }

  /** `GET /patients/:id`, open to every doctor. */
  function GetPatient(
    users: seq<User>, patients: seq<Patient>, rxs: seq<Prescription>, crs: seq<ChangeRequest>,
    id: Id): (r: Result<PatientRecord>)
    ensures r.Err? <==> PatientById(patients, id).None?
    ensures r.Err? ==> r.error == NotFound("Patient not found")
    ensures r.Ok? ==> r.value.patient in patients && r.value.patient.id == id
    ensures r.Ok? ==> r.value == Record(users, rxs, crs, r.value.patient)
  {
    match PatientById(patients, id)
    case None => Err(NotFound("Patient not found"))
    case Some(p) => Ok(Record(users, rxs, crs, p))
  }

  // ---------------------------------------------------------------------------
  // GET /change-requests

  /** `GET /change-requests`: the requests addressed to this doctor, newest first. */
  function DoctorChangeRequests(doctors: seq<Doctor>, crs: seq<ChangeRequest>, caller: Claims)
    : (r: Result<seq<ChangeRequest>>)
    ensures r.Err? <==> DoctorByUser(doctors, caller.userId).None?
    ensures r.Err? ==> r.error == NotFound("Doctor profile not found")
    ensures r.Ok? ==> var doctorId := DoctorByUser(doctors, caller.userId).value.id;
              Selects(r.value, crs, (cr: ChangeRequest) => cr.doctorId == doctorId)
    ensures r.Ok? ==> forall i, j :: 0 <= i < j < |r.value| ==> r.value[i].createdAt >= r.value[j].createdAt
  {
    match DoctorByUser(doctors, caller.userId)
    case None => Err(NotFound("Doctor profile not found"))
    case Some(doctor) =>
      FilterSelects(crs, (cr: ChangeRequest) => cr.doctorId == doctor.id);
      Ok(NewestFirst(Filter(crs, (cr: ChangeRequest) => cr.doctorId == doctor.id), (cr: ChangeRequest) => cr.createdAt))
  }

  // ---------------------------------------------------------------------------
  // POST /change-requests/:id/respond

  /** The three checks of lines 215-225, in their order, and the status they admit. */
  function ValidateResponse(status: Field, doctorResponse: Field): (r: Result<RequestStatus>)
    ensures !Truthy(status) ==> r == Err(BadRequest("Status is required"))
    ensures Truthy(status) && status.value == "RESPONDED" && !Truthy(doctorResponse) ==>
              r == Err(BadRequest("Response text is required when responding"))
    ensures Truthy(status) && status.value != "RESPONDED" && status.value != "DISMISSED" ==>
              r == Err(BadRequest("Status must be RESPONDED or DISMISSED"))
    ensures r.Ok? <==>
              Truthy(status) && (status.value == "DISMISSED" || (status.value == "RESPONDED" && Truthy(doctorResponse)))
    ensures r.Ok? ==> r.value != PENDING && (r.value == RESPONDED <==> status.value == "RESPONDED")
  {
    if !Truthy(status) then Err(BadRequest("Status is required"))
    else if status.value == "RESPONDED" && !Truthy(doctorResponse) then
      Err(BadRequest("Response text is required when responding"))
    else if status.value == "RESPONDED" then Ok(RESPONDED)
    else if status.value == "DISMISSED" then Ok(DISMISSED)
    else Err(BadRequest("Status must be RESPONDED or DISMISSED"))
  }

  /** The `changeRequest.update`: the new status, the response text when one is
      sent (an absent field leaves the column as it was), and the response time.
      Neither the current status nor the addressed doctor is consulted. */
  function Answered(cr: ChangeRequest, status: RequestStatus, doctorResponse: Field, now: int): (a: ChangeRequest)
    ensures a.status == status && a.respondedAt == Some(now)
    ensures a.doctorResponse == if doctorResponse.Some? then doctorResponse else cr.doctorResponse
    ensures a.(status := cr.status, doctorResponse := cr.doctorResponse, respondedAt := cr.respondedAt) == cr
  {
    cr.(status := status,
        doctorResponse := if doctorResponse.Some? then doctorResponse else cr.doctorResponse,
        respondedAt := Some(now))
  }

  /** A request already DISMISSED can still be answered: no status is terminal. */
  lemma DismissedCanBeAnsweredAgain(cr: ChangeRequest, text: string, t1: int, t2: int)
    requires text != ""
    ensures var dismissed := Answered(cr, DISMISSED, None, t1);
      ValidateResponse(Some("RESPONDED"), Some(text)) == Ok(RESPONDED) &&
      Answered(dismissed, RESPONDED, Some(text), t2).status == RESPONDED
  {
  }

  /** `POST /change-requests/:id/respond`: after the checks, the row with the
      given id is updated whatever its status and whichever doctor it addresses;
      an id with no row makes the update throw, which the handler answers with 500. */
  method Respond(db: Db, requestId: Id, status: Field, doctorResponse: Field, now: int)
    returns (r: Result<ChangeRequest>)
    requires db.Valid()
    modifies db
    ensures db.Valid()
    ensures ValidateResponse(status, doctorResponse).Err? ==>
              r == Err(ValidateResponse(status, doctorResponse).error) && unchanged(db)
    ensures ValidateResponse(status, doctorResponse).Ok? &&
            (forall i :: 0 <= i < |old(db.changeRequests)| ==> old(db.changeRequests)[i].id != requestId) ==>
              r == Err(ServerError("Failed to respond to change request")) && unchanged(db)
    ensures r.Ok? ==> exists k :: (0 <= k < |old(db.changeRequests)| && old(db.changeRequests)[k].id == requestId &&
              r.value == Answered(old(db.changeRequests)[k], ValidateResponse(status, doctorResponse).value, doctorResponse, now) &&
              db.changeRequests == old(db.changeRequests)[k := r.value])
    ensures r.Ok? <==> (ValidateResponse(status, doctorResponse).Ok? &&
              exists k :: 0 <= k < |old(db.changeRequests)| && old(db.changeRequests)[k].id == requestId)
    ensures db.users == old(db.users) && db.doctors == old(db.doctors) && db.patients == old(db.patients)
    ensures db.prescriptions == old(db.prescriptions) && db.nextId == old(db.nextId)
  {
    var checked := ValidateResponse(status, doctorResponse);
    if checked.Err? {
      return Err(checked.error);
    }
    var k := IndexWhere(db.changeRequests, (cr: ChangeRequest) => cr.id == requestId);
    if k.None? {
      return Err(ServerError("Failed to respond to change request"));
    }
    var updated := Answered(db.changeRequests[k.value], checked.value, doctorResponse, now);
    UniqueUpdate(db.changeRequests, k.value, updated, RequestIdOf);
    db.changeRequests := db.changeRequests[k.value := updated];
    r := Ok(updated);
  }
}
