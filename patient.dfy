/** The patient routes (backend/src/routes/patient.js): the patient's own
    prescriptions with the optional status filter, the profile, the QR link,
    and the patient side of the change-request mailbox. Every route sits
    behind `Gate.PatientGate`; `caller` is the identity it attached. */
module PatientRoutes {
  import opened Common
  import opened Query
  import opened Store
  import opened Gate

  const NO_PROFILE: string := "Patient profile not found"

  // ---------------------------------------------------------------------------
  // GET /prescriptions

  /** The `?status=` filter applies only when it names one of the three statuses. */
  function StatusFilter(status: Field): (r: Option<RxStatus>)
    ensures r == Some(ACTIVE) <==> status == Some("ACTIVE")
    ensures r == Some(EXPIRED) <==> status == Some("EXPIRED")
    ensures r == Some(REPLACED) <==> status == Some("REPLACED")
    ensures r.None? <==> !(status in {Some("ACTIVE"), Some("EXPIRED"), Some("REPLACED")})
  {
    if !Truthy(status) then None
    else if status.value == "ACTIVE" then Some(ACTIVE)
    else if status.value == "EXPIRED" then Some(EXPIRED)
    else if status.value == "REPLACED" then Some(REPLACED)
    else None
  }

  /** The `where` object: the caller's patient id, and the status when the filter applies. */
  predicate InView(rx: Prescription, patientId: Id, filter: Option<RxStatus>) {
    rx.patientId == patientId && (filter.Some? ==> rx.status == filter.value)
  }

  /** `GET /prescriptions`: the caller's own prescriptions, filtered by status
      when the filter names one, newest first. */
  function OwnPrescriptions(patients: seq<Patient>, rxs: seq<Prescription>, caller: Claims, status: Field)
    : (r: Result<seq<Prescription>>)
    ensures r.Err? <==> PatientByUser(patients, caller.userId).None?
    ensures r.Err? ==> r.error == NotFound(NO_PROFILE)
    ensures r.Ok? ==> var patientId := PatientByUser(patients, caller.userId).value.id;
              Selects(r.value, rxs, (rx: Prescription) => InView(rx, patientId, StatusFilter(status)))
    ensures r.Ok? ==> forall i, j :: 0 <= i < j < |r.value| ==> r.value[i].prescribedAt >= r.value[j].prescribedAt
  {
    match PatientByUser(patients, caller.userId)
    case None => Err(NotFound(NO_PROFILE))
    case Some(patient) =>
      var filter := StatusFilter(status);
      FilterSelects(rxs, (rx: Prescription) => InView(rx, patient.id, filter));
      Ok(NewestFirst(Filter(rxs, (rx: Prescription) => InView(rx, patient.id, filter)), (rx: Prescription) => rx.prescribedAt))
  }

  /** Any status value other than the three (or none) lists every own prescription. */
  lemma UnknownFilterListsAll(patients: seq<Patient>, rxs: seq<Prescription>, caller: Claims, status: Field)
    requires StatusFilter(status).None?
    requires PatientByUser(patients, caller.userId).Some?
    ensures var patientId := PatientByUser(patients, caller.userId).value.id;
      Selects(OwnPrescriptions(patients, rxs, caller, status).value, rxs, (rx: Prescription) => rx.patientId == patientId)
  {
    var patientId := PatientByUser(patients, caller.userId).value.id;
    SelectsSamePredicate(OwnPrescriptions(patients, rxs, caller, status).value, rxs,
      (rx: Prescription) => InView(rx, patientId, StatusFilter(status)),
      (rx: Prescription) => rx.patientId == patientId);
  }

  // ---------------------------------------------------------------------------
  // GET /profile

  datatype Profile = Profile(patient: Patient, email: Option<string>)

  /** `GET /profile`: the caller's patient row with the account email. */
  function OwnProfile(users: seq<User>, patients: seq<Patient>, caller: Claims): (r: Result<Profile>)
    ensures r.Err? <==> PatientByUser(patients, caller.userId).None?
    ensures r.Err? ==> r.error == NotFound(NO_PROFILE)
    ensures r.Ok? ==> r.value.patient in patients && r.value.patient.userId == caller.userId
    ensures r.Ok? ==> r.value.email == EmailOfUser(users, caller.userId)
  {
    match PatientByUser(patients, caller.userId)
    case None => Err(NotFound(NO_PROFILE))
    case Some(patient) =>
      Ok(Profile(patient, EmailOfUser(users, patient.userId)))
  }

  // ---------------------------------------------------------------------------
  // GET /qr

  const DEFAULT_FRONTEND_URL: string := "http://localhost:3000"
  const SCAN_PATH: string := "/scan/"

  /** The QR payload without the rendered image. */
  datatype QrInfo = QrInfo(qrUrl: string, qrToken: string, patientId: string, patientName: string)

  /** `process.env.FRONTEND_URL || 'http://localhost:3000'` */
  function FrontendUrl(env: Field): (url: string)
    ensures Truthy(env) ==> url == env.value
    ensures !Truthy(env) ==> url == DEFAULT_FRONTEND_URL
  {
    OrElse(env, DEFAULT_FRONTEND_URL)
  }

  /** `${frontendUrl}/scan/${qrToken}` */
  function ScanUrl(frontendUrl: string, qrToken: string): (url: string)
    ensures StartsWith(url, frontendUrl + SCAN_PATH) && url[|frontendUrl + SCAN_PATH|..] == qrToken
  {
    frontendUrl + SCAN_PATH + qrToken
  }

  /** The token a scan link carries: what follows the frontend's `/scan/` path. */
  function TokenOfScanUrl(frontendUrl: string, url: string): (token: Option<string>)
    ensures token.Some? <==> StartsWith(url, frontendUrl + SCAN_PATH)
    ensures token.Some? ==> ScanUrl(frontendUrl, token.value) == url
  {
    var prefix := frontendUrl + SCAN_PATH;
    assert StartsWith(url, prefix) ==> url == prefix + url[|prefix|..];
    if StartsWith(url, prefix) then Some(url[|prefix|..]) else None
  }

  lemma ScanUrlRoundTrip(frontendUrl: string, qrToken: string)
    ensures TokenOfScanUrl(frontendUrl, ScanUrl(frontendUrl, qrToken)) == Some(qrToken)
  {
    var prefix := frontendUrl + SCAN_PATH;
    assert ScanUrl(frontendUrl, qrToken)[..|prefix|] == prefix;
    assert ScanUrl(frontendUrl, qrToken)[|prefix|..] == qrToken;
  }

  /** `GET /qr`: the scan link for the caller's own token. */
  function OwnQr(patients: seq<Patient>, caller: Claims, env: Field): (r: Result<QrInfo>)
    ensures r.Err? <==> PatientByUser(patients, caller.userId).None?
    ensures r.Err? ==> r.error == NotFound(NO_PROFILE)
    ensures r.Ok? ==> var p := PatientByUser(patients, caller.userId).value;
              && r.value.qrToken == p.qrToken && r.value.patientId == p.uniquePatientId && r.value.patientName == p.name
              && TokenOfScanUrl(FrontendUrl(env), r.value.qrUrl) == Some(p.qrToken)
    ensures r.Ok? && !Truthy(env) ==> r.value.qrUrl[..|DEFAULT_FRONTEND_URL|] == DEFAULT_FRONTEND_URL
  {
    match PatientByUser(patients, caller.userId)
    case None => Err(NotFound(NO_PROFILE))
    case Some(patient) =>
      var url := ScanUrl(FrontendUrl(env), patient.qrToken);
      ScanUrlRoundTrip(FrontendUrl(env), patient.qrToken);
      Ok(QrInfo(url, patient.qrToken, patient.uniquePatientId, patient.name))
  }

  // ---------------------------------------------------------------------------
  // POST /change-requests

  const REQUIRED_REQUEST_FIELDS: string := "Prescription and reason are required"

  /** The record `changeRequest.create` inserts, after the checks of lines 84-97:
      only against a prescription the caller owns, addressed to its prescriber. */
  function NewChangeRequest(
    patients: seq<Patient>, rxs: seq<Prescription>, caller: Claims,
    prescriptionId: Option<Id>, reason: Field, id: Id, now: int): (r: Result<ChangeRequest>)
    ensures prescriptionId.None? || !Truthy(reason) ==> r == Err(BadRequest(REQUIRED_REQUEST_FIELDS))
    ensures prescriptionId.Some? && Truthy(reason) && PatientByUser(patients, caller.userId).None? ==>
              r == Err(NotFound(NO_PROFILE))
    ensures prescriptionId.Some? && Truthy(reason) && PatientByUser(patients, caller.userId).Some? &&
            (PrescriptionById(rxs, prescriptionId.value).None? ||
             PrescriptionById(rxs, prescriptionId.value).value.patientId != PatientByUser(patients, caller.userId).value.id) ==>
              r == Err(NotFound("Prescription not found"))
    ensures r.Ok? ==>
              && prescriptionId.Some? && Truthy(reason)
              && PatientByUser(patients, caller.userId).Some?
              && PrescriptionById(rxs, prescriptionId.value).Some?
              && var rx := PrescriptionById(rxs, prescriptionId.value).value;
                 && rx.patientId == PatientByUser(patients, caller.userId).value.id
                 && r.value == ChangeRequest(id, rx.patientId, rx.doctorId, rx.id, reason.value, PENDING, None, now, None)
  {
    if prescriptionId.None? || !Truthy(reason) then Err(BadRequest(REQUIRED_REQUEST_FIELDS))
    else match PatientByUser(patients, caller.userId)
      case None => Err(NotFound(NO_PROFILE))
      case Some(patient) =>
        match PrescriptionById(rxs, prescriptionId.value)
        case None => Err(NotFound("Prescription not found"))
        case Some(rx) =>
          if rx.patientId != patient.id then Err(NotFound("Prescription not found"))
          else Ok(ChangeRequest(id, patient.id, rx.doctorId, prescriptionId.value, reason.value, PENDING, None, now, None))
  }

  /** `POST /change-requests`: insert the request when the checks pass. */
  method CreateChangeRequest(db: Db, caller: Claims, prescriptionId: Option<Id>, reason: Field, now: int)
    returns (r: Result<ChangeRequest>)
    requires db.Valid()
    modifies db
    ensures db.Valid()
    ensures r == NewChangeRequest(old(db.patients), old(db.prescriptions), caller, prescriptionId, reason, old(db.nextId), now)
    ensures r.Err? ==> unchanged(db)
    ensures r.Ok? ==> db.changeRequests == old(db.changeRequests) + [r.value] && db.nextId == old(db.nextId) + 1
    ensures db.users == old(db.users) && db.doctors == old(db.doctors) && db.patients == old(db.patients)
    ensures db.prescriptions == old(db.prescriptions)
  {
    if prescriptionId.None? || !Truthy(reason) {
      return Err(BadRequest(REQUIRED_REQUEST_FIELDS));
    }
    var patient := PatientByUser(db.patients, caller.userId);
    if patient.None? {
      return Err(NotFound(NO_PROFILE));
    }
    var rx := PrescriptionById(db.prescriptions, prescriptionId.value);
    if rx.None? || rx.value.patientId != patient.value.id {
      return Err(NotFound("Prescription not found"));
    }
    var cr := ChangeRequest(
      db.nextId, patient.value.id, rx.value.doctorId, prescriptionId.value, reason.value, PENDING, None, now, None);
    UniqueAppend(db.changeRequests, cr, RequestIdOf);
    db.changeRequests := db.changeRequests + [cr];
    db.nextId := db.nextId + 1;
    r := Ok(cr);
  }

  // ---------------------------------------------------------------------------
  // GET /change-requests

  /** `GET /change-requests`: the caller's own requests, newest first. */
  function OwnChangeRequests(patients: seq<Patient>, crs: seq<ChangeRequest>, caller: Claims)
    : (r: Result<seq<ChangeRequest>>)
    ensures r.Err? <==> PatientByUser(patients, caller.userId).None?
    ensures r.Err? ==> r.error == NotFound(NO_PROFILE)
    ensures r.Ok? ==> var patientId := PatientByUser(patients, caller.userId).value.id;
              Selects(r.value, crs, (cr: ChangeRequest) => cr.patientId == patientId)
    ensures r.Ok? ==> forall i, j :: 0 <= i < j < |r.value| ==> r.value[i].createdAt >= r.value[j].createdAt
  {
    match PatientByUser(patients, caller.userId)
    case None => Err(NotFound(NO_PROFILE))
    case Some(patient) =>
      FilterSelects(crs, (cr: ChangeRequest) => cr.patientId == patient.id);
      Ok(NewestFirst(Filter(crs, (cr: ChangeRequest) => cr.patientId == patient.id), (cr: ChangeRequest) => cr.createdAt))
  }
}
