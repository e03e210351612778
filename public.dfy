/** The unauthenticated QR view (backend/src/routes/public.js): a patient
    looked up by token, projected onto the fields a scanner may see, with the
    active medications only. */
module PublicRoutes {
  import opened Common
  import opened Query
  import opened Store
  import opened Gate
  import opened PatientRoutes

  datatype DoctorCard = DoctorCard(name: string, hospital: string)

  /** One row of `activeMedications`: the selected prescription columns and
      the prescriber's name and hospital. */
  datatype PublicMedication = PublicMedication(
    medicationName: string, dosage: string, frequency: string, duration: string, notes: string,
    status: RxStatus, prescribedAt: int, doctor: Option<DoctorCard>)

  /** The whole response body: no email, no phone, no history. */
  datatype PublicRecord = PublicRecord(
    patientName: string, patientId: string, age: int, gender: string,
    activeMedications: seq<PublicMedication>, lastUpdated: Option<int>)

  predicate IsActiveFor(rx: Prescription, patientId: Id) {
    rx.patientId == patientId && rx.status == ACTIVE
  }

  /** The nested `prescriptions` query of lines 16-31: the patient's ACTIVE
      rows, newest first. */
  function ActiveRows(rxs: seq<Prescription>, patientId: Id): (rows: seq<Prescription>)
    ensures Selects(rows, rxs, (rx: Prescription) => IsActiveFor(rx, patientId))
    ensures forall i :: 0 <= i < |rows| ==> IsActiveFor(rows[i], patientId)
    ensures forall i, j :: 0 <= i < j < |rows| ==> rows[i].prescribedAt >= rows[j].prescribedAt
  {
    var active := (rx: Prescription) => IsActiveFor(rx, patientId);
    FilterSelects(rxs, active);
    var rows := NewestFirst(Filter(rxs, active), (rx: Prescription) => rx.prescribedAt);
    assert forall i :: 0 <= i < |rows| ==> rows[i] in multiset(Filter(rxs, active));
    rows
  }

  /** The included `doctor: { select: { name, hospital } }` of a row. */
  function Card(doctors: seq<Doctor>, doctorId: Id): (c: Option<DoctorCard>)
    ensures c.None? <==> DoctorById(doctors, doctorId).None?
    ensures c.Some? ==> var d := DoctorById(doctors, doctorId).value;
              d in doctors && d.id == doctorId && c.value == DoctorCard(d.name, d.hospital)
  {
    match DoctorById(doctors, doctorId)
    case None => None
    case Some(d) => Some(DoctorCard(d.name, d.hospital))
  }

  function Medication(doctors: seq<Doctor>, rx: Prescription): PublicMedication {
    PublicMedication(rx.medicationName, rx.dosage, rx.frequency, rx.duration, rx.notes,
      rx.status, rx.prescribedAt, Card(doctors, rx.doctorId))
  }

  /** The `select` of lines 18-29 over the active rows, in their order. */
  function Medications(doctors: seq<Doctor>, rows: seq<Prescription>): (meds: seq<PublicMedication>)
    ensures |meds| == |rows|
    ensures forall i :: 0 <= i < |rows| ==> meds[i] == Medication(doctors, rows[i])
  {
    seq(|rows|, i requires 0 <= i < |rows| => Medication(doctors, rows[i]))
  }

  /** Lines 45-47. */
  function LastUpdated(meds: seq<PublicMedication>): Option<int> {
    if |meds| > 0 then Some(meds[0].prescribedAt) else None
  }

  /** `GET /public/patient/:qrToken`. */
  function PublicView(patients: seq<Patient>, doctors: seq<Doctor>, rxs: seq<Prescription>, qrToken: string)
    : (r: Result<PublicRecord>)
    ensures r.Err? <==> PatientByToken(patients, qrToken).None?
    ensures r.Err? ==> r.error == NotFound("Patient not found")
    ensures r.Ok? ==> var p := PatientByToken(patients, qrToken).value;
              && p in patients && p.qrToken == qrToken
              && r.value.patientName == p.name && r.value.patientId == p.uniquePatientId
              && r.value.age == p.age && r.value.gender == p.gender
              && r.value.activeMedications == Medications(doctors, ActiveRows(rxs, p.id))
              && r.value.lastUpdated == LastUpdated(r.value.activeMedications)
    ensures r.Ok? ==> forall i :: 0 <= i < |r.value.activeMedications| ==> r.value.activeMedications[i].status == ACTIVE
    ensures r.Ok? ==> forall i, j :: 0 <= i < j < |r.value.activeMedications| ==>
              r.value.activeMedications[i].prescribedAt >= r.value.activeMedications[j].prescribedAt
  {
    match PatientByToken(patients, qrToken)
    case None => Err(NotFound("Patient not found"))
    case Some(p) =>
      var meds := Medications(doctors, ActiveRows(rxs, p.id));
      Ok(PublicRecord(p.name, p.uniquePatientId, p.age, p.gender, meds, LastUpdated(meds)))
  }

  /** `lastUpdated` is null exactly when the patient has no active
      prescription, and otherwise the latest date among them. */
  lemma LastUpdatedIsLatest(doctors: seq<Doctor>, rxs: seq<Prescription>, patientId: Id)
    ensures var last := LastUpdated(Medications(doctors, ActiveRows(rxs, patientId)));
      && (last.None? <==> forall x :: x in rxs ==> !IsActiveFor(x, patientId))
      && (last.Some? ==> exists x :: x in rxs && IsActiveFor(x, patientId) && x.prescribedAt == last.value)
      && (last.Some? ==> forall x :: x in rxs && IsActiveFor(x, patientId) ==> x.prescribedAt <= last.value)
  {
    var rows := ActiveRows(rxs, patientId);
    SelectsMembership(rows, rxs, (rx: Prescription) => IsActiveFor(rx, patientId));
    NewestIsMaximum(rows, rxs, patientId);
    if |rows| > 0 {
      assert rows[0] in rows;
    }
  }

  /** The first of the sorted active rows is the latest active prescription. */
  lemma NewestIsMaximum(rows: seq<Prescription>, rxs: seq<Prescription>, patientId: Id)
    requires forall x :: x in rows <==> x in rxs && IsActiveFor(x, patientId)
    requires forall i, j :: 0 <= i < j < |rows| ==> rows[i].prescribedAt >= rows[j].prescribedAt
    ensures |rows| > 0 ==> forall x :: x in rxs && IsActiveFor(x, patientId) ==> x.prescribedAt <= rows[0].prescribedAt
  {
    if |rows| > 0 {
      forall x | x in rxs && IsActiveFor(x, patientId) ensures x.prescribedAt <= rows[0].prescribedAt {
        var k :| 0 <= k < |rows| && rows[k] == x;
        if k > 0 {
          assert rows[0].prescribedAt >= rows[k].prescribedAt;
        }
      }
    }
  }

  /** Rows that are not active are never shown: adding one changes nothing. */
  lemma {:induction false} HistoryIsHidden(
    patients: seq<Patient>, doctors: seq<Doctor>, rxs: seq<Prescription>, qrToken: string, rx: Prescription)
    requires rx.status != ACTIVE
    ensures PublicView(patients, doctors, rxs + [rx], qrToken) == PublicView(patients, doctors, rxs, qrToken)
  {
    if PatientByToken(patients, qrToken).Some? {
      InactiveRowIsHidden(rxs, rx, PatientByToken(patients, qrToken).value.id);
    }
  }

  lemma InactiveRowIsHidden(rxs: seq<Prescription>, rx: Prescription, patientId: Id)
    requires !IsActiveFor(rx, patientId)
    ensures ActiveRows(rxs + [rx], patientId) == ActiveRows(rxs, patientId)
  {
    var active := (x: Prescription) => IsActiveFor(x, patientId);
    FilterAppend(rxs, rx, active);
    assert Filter(rxs + [rx], active) == Filter(rxs, active);
  }

  /** Two patient tables that differ at most in what the view must not show. */
  predicate SameButPrivate(patients: seq<Patient>, patients': seq<Patient>) {
    |patients| == |patients'| &&
    forall i :: 0 <= i < |patients| ==>
      patients'[i] == patients[i].(phone := patients'[i].phone, userId := patients'[i].userId)
  }

  lemma {:induction false} PatientByTokenIgnoresPrivate(patients: seq<Patient>, patients': seq<Patient>, qrToken: string)
    requires SameButPrivate(patients, patients')
    ensures PatientByToken(patients, qrToken).None? <==> PatientByToken(patients', qrToken).None?
    ensures PatientByToken(patients, qrToken).Some? ==>
              var p, p' := PatientByToken(patients, qrToken).value, PatientByToken(patients', qrToken).value;
              p' == p.(phone := p'.phone, userId := p'.userId)
  {
    if patients != [] {
      assert SameButPrivate(patients[1..], patients'[1..]);
      PatientByTokenIgnoresPrivate(patients[1..], patients'[1..], qrToken);
    }
  }

  /** The patient's phone number and account (hence email) never reach the view. */
  lemma PublicViewIgnoresPrivate(
    patients: seq<Patient>, patients': seq<Patient>, doctors: seq<Doctor>, rxs: seq<Prescription>, qrToken: string)
    requires SameButPrivate(patients, patients')
    ensures PublicView(patients, doctors, rxs, qrToken) == PublicView(patients', doctors, rxs, qrToken)
  {
    PatientByTokenIgnoresPrivate(patients, patients', qrToken);
  }

  /** With tokens unique, the lookup by a patient's token finds that patient. */
  lemma {:induction false} TokenFindsOwner(patients: seq<Patient>, k: nat)
    requires Unique(patients, QrTokenOf) && k < |patients|
    ensures PatientByToken(patients, patients[k].qrToken) == Some(patients[k])
  {
    if k > 0 {
      assert QrTokenOf(patients[0]) != QrTokenOf(patients[k]);
      assert Unique(patients[1..], QrTokenOf);
      TokenFindsOwner(patients[1..], k - 1);
    }
  }

  /** Scanning the link `GET /qr` hands a patient opens that patient's public record. */
  lemma ScannedLinkOpensOwnRecord(
    patients: seq<Patient>, doctors: seq<Doctor>, rxs: seq<Prescription>, caller: Claims, env: Field)
    requires Unique(patients, QrTokenOf)
    requires OwnQr(patients, caller, env).Ok?
    ensures var info := OwnQr(patients, caller, env).value;
      && TokenOfScanUrl(FrontendUrl(env), info.qrUrl) == Some(info.qrToken)
      && PublicView(patients, doctors, rxs, info.qrToken).Ok?
      && PublicView(patients, doctors, rxs, info.qrToken).value.patientId == info.patientId
      && PublicView(patients, doctors, rxs, info.qrToken).value.patientName == info.patientName
  {
    var p := PatientByUser(patients, caller.userId).value;
    var k :| 0 <= k < |patients| && patients[k] == p;
    TokenFindsOwner(patients, k);
  }
}
