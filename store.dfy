/** The record store that stands in for the database tables: the row types,
    the lookups the handlers perform, and the class holding the tables with the
    invariants the database's unique constraints keep. */
module Store {
  import opened Common
  import opened Query

  datatype User = User(id: Id, email: string, passwordHash: string, role: Role)

  datatype Doctor = Doctor(
    id: Id, userId: Id, name: string, hospital: string, regNumber: string, specialization: string)

  datatype Patient = Patient(
    id: Id, userId: Id, name: string, uniquePatientId: string, qrToken: string,
    age: int, gender: string, phone: string)

  datatype RxStatus = ACTIVE | EXPIRED | REPLACED

  datatype Prescription = Prescription(
    id: Id, patientId: Id, doctorId: Id,
    medicationName: string, dosage: string, frequency: string, duration: string, notes: string,
    status: RxStatus, prescribedAt: int, expiresAt: Option<int>)

  datatype RequestStatus = PENDING | RESPONDED | DISMISSED

  datatype ChangeRequest = ChangeRequest(
    id: Id, patientId: Id, doctorId: Id, prescriptionId: Id, reason: string,
    status: RequestStatus, doctorResponse: Option<string>, createdAt: int, respondedAt: Option<int>)

  /** No two rows agree on `key` (a unique column). */
  predicate Unique<T, K(==)>(s: seq<T>, key: T -> K) {
    forall i, j :: 0 <= i < j < |s| ==> key(s[i]) != key(s[j])
  }

  /** Every id in the column is below the next id the store hands out. */
  predicate Below<T>(s: seq<T>, key: T -> Id, bound: nat) {
    forall i :: 0 <= i < |s| ==> key(s[i]) < bound
  }

  lemma UniqueAppend<T, K>(s: seq<T>, x: T, key: T -> K)
    requires Unique(s, key)
    requires forall i :: 0 <= i < |s| ==> key(s[i]) != key(x)
    ensures Unique(s + [x], key)
  {
  }

  lemma UniqueUpdate<T, K>(s: seq<T>, k: nat, x: T, key: T -> K)
    requires Unique(s, key) && k < |s| && key(x) == key(s[k])
    ensures Unique(s[k := x], key)
  {
  }

  // The columns the invariant constrains.
  function UserIdOf(u: User): Id { u.id }
  function EmailOf(u: User): string { u.email }
  function DoctorIdOf(d: Doctor): Id { d.id }
  function DoctorUserOf(d: Doctor): Id { d.userId }
  function PatientIdOf(p: Patient): Id { p.id }
  function PatientUserOf(p: Patient): Id { p.userId }
  function UniquePatientIdOf(p: Patient): string { p.uniquePatientId }
  function QrTokenOf(p: Patient): string { p.qrToken }
  function RxIdOf(rx: Prescription): Id { rx.id }
  function RequestIdOf(cr: ChangeRequest): Id { cr.id }

  /** Two prescriptions are for the same medication of the same patient. */
  predicate SameCourse(a: Prescription, b: Prescription) {
    a.patientId == b.patientId && a.medicationName == b.medicationName
  }

  /** The ledger invariant: at most one ACTIVE prescription per (patient, medicationName). */
  predicate AtMostOneActive(rxs: seq<Prescription>) {
    forall i, j :: 0 <= i < j < |rxs| && rxs[i].status == ACTIVE && rxs[j].status == ACTIVE ==>
      !SameCourse(rxs[i], rxs[j])
  }

  // The `findUnique` lookups, one per unique column the handlers query.

  function UserById(users: seq<User>, id: Id): Option<User> {
    First(users, (u: User) => u.id == id)
  }

  function UserByEmail(users: seq<User>, email: string): Option<User> {
    First(users, (u: User) => u.email == email)
  }

  function DoctorByUser(doctors: seq<Doctor>, userId: Id): Option<Doctor> {
    First(doctors, (d: Doctor) => d.userId == userId)
  }

  function DoctorById(doctors: seq<Doctor>, id: Id): Option<Doctor> {
    First(doctors, (d: Doctor) => d.id == id)
  }

  function PatientById(patients: seq<Patient>, id: Id): Option<Patient> {
    First(patients, (p: Patient) => p.id == id)
  }

  function PatientByUser(patients: seq<Patient>, userId: Id): Option<Patient> {
    First(patients, (p: Patient) => p.userId == userId)
  }

  function PatientByUniqueId(patients: seq<Patient>, uniquePatientId: string): Option<Patient> {
    First(patients, (p: Patient) => p.uniquePatientId == uniquePatientId)
  }

  function PatientByToken(patients: seq<Patient>, qrToken: string): Option<Patient> {
    First(patients, (p: Patient) => p.qrToken == qrToken)
  }

  function PrescriptionById(rxs: seq<Prescription>, id: Id): Option<Prescription> {
    First(rxs, (rx: Prescription) => rx.id == id)
  }

  /** The email of the account a profile belongs to, as an `include` of the
      user's `email` gives it: none when no account has the id. */
  function EmailOfUser(users: seq<User>, userId: Id): (r: Option<string>)
    ensures r.None? <==> UserById(users, userId).None?
    ensures r.Some? ==> r.value == UserById(users, userId).value.email
  {
    match UserById(users, userId)
    case None => None
    case Some(u) => Some(u.email)
  }

  // The unique constraints of each table, and the ledger invariant.

  predicate UsersValid(users: seq<User>, nextId: nat) {
    Below(users, UserIdOf, nextId) && Unique(users, UserIdOf) && Unique(users, EmailOf)
  }

  predicate DoctorsValid(doctors: seq<Doctor>, nextId: nat) {
    && Below(doctors, DoctorIdOf, nextId) && Below(doctors, DoctorUserOf, nextId)
    && Unique(doctors, DoctorIdOf) && Unique(doctors, DoctorUserOf)
  }

  predicate PatientsValid(patients: seq<Patient>, nextId: nat) {
    && Below(patients, PatientIdOf, nextId) && Below(patients, PatientUserOf, nextId)
    && Unique(patients, PatientIdOf) && Unique(patients, PatientUserOf)
    && Unique(patients, UniquePatientIdOf) && Unique(patients, QrTokenOf)
  }

  predicate PrescriptionsValid(rxs: seq<Prescription>, nextId: nat) {
    Below(rxs, RxIdOf, nextId) && Unique(rxs, RxIdOf) && AtMostOneActive(rxs)
  }

  predicate RequestsValid(crs: seq<ChangeRequest>, nextId: nat) {
    Below(crs, RequestIdOf, nextId) && Unique(crs, RequestIdOf)
  }

  /** The tables. Ids come from `nextId`, which stands for the database's uuid default. */
  class Db {
    var users: seq<User>
    var doctors: seq<Doctor>
    var patients: seq<Patient>
    var prescriptions: seq<Prescription>
    var changeRequests: seq<ChangeRequest>
    var nextId: nat

    ghost predicate Valid()
      reads this
    {
      && UsersValid(users, nextId)
      && DoctorsValid(doctors, nextId)
      && PatientsValid(patients, nextId)
      && PrescriptionsValid(prescriptions, nextId)
      && RequestsValid(changeRequests, nextId)
    }

    constructor ()
      ensures Valid()
      ensures users == [] && doctors == [] && patients == []
      ensures prescriptions == [] && changeRequests == [] && nextId == 0
    {
      users, doctors, patients := [], [], [];
      prescriptions, changeRequests := [], [];
      nextId := 0;
    }
  }
}
