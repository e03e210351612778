# MedLog backend model

A Dafny model of the domain logic of the MedLog backend: an Express service over
a relational store (Prisma) that connects doctors and patients.

- Doctors create prescriptions. A new prescription supersedes the patient's
  ACTIVE prescription for the same medication name.
- Doctors list and look up their patients and answer change requests.
- Patients read their own prescriptions, raise change requests and get a QR
  link.
- Anyone holding the link sees a read-only view of the patient's active
  medications.

The database tables are sequences held by one class, `Store.Db`. Its invariant
`Db.Valid` combines:
- the unique columns (ids, email, doctor and patient `userId`,
  `uniquePatientId`, `qrToken`);
- the ledger invariant "at most one ACTIVE prescription per (patient,
  medicationName)".

Every handler answers either with a payload or with one `HttpError`: 400, 401,
403, 404, 409 or 500, with the handler's own message. Handlers that only read
are functions over the tables. Handlers that write are module-level methods
that take the `Db` and modify it. Each such method keeps `Valid` and states,
on every path, which tables change and how, and where `nextId` ends up.

Modules, one per source file, plus three shared ones:

- `Common`: ids, `Option`, `Result`, `HttpError`, and JavaScript truthiness of
  body fields (`Field`, `Truthy`, `OrElse`).
- `Query`: the pieces of Prisma queries used by the handlers:
  - `where` filtering (`Filter`, with `Selects`: multiset-exact selection);
  - `findUnique` (`First`);
  - `orderBy` (an insertion `Sort`, `NewestFirst`, `ByNameAscending` in code-point order).
- `Store`: the row types, the lookups, the unique-column invariants and the `Db` class.
- `Gate`: `backend/src/middleware/auth.js`.
- `Qr`: `generatePatientId` of `backend/src/utils/qr.js`. This includes
  JavaScript's `trim`, `split(/\s+/)` and `toUpperCase`, and the decimal rendering.
- `DoctorRoutes`, `PatientRoutes`, `AuthRoutes`, `PublicRoutes`: the four route files.

External inputs become parameters:
- `jwt.verify` is a function `string -> Option<Claims>`.
- `bcrypt.compare` is a function `(string, string) -> bool`.
- The bcrypt hash, the random draw of the patient id, the random QR token, the
  current time and `FRONTEND_URL` are values.
- `jwt.sign` is represented by the claims it signs.

The code departs from the behaviour the service is meant to have in these
places, and the model follows the code:

- Patient search is meant to ignore case. The code's `contains` filter sets no
  `mode`, so the model matches case-sensitively.
- An account and its profile are meant to be created as one unit. The code
  rolls back the account only when a doctor leaves out hospital or
  registration number. When the profile insert itself fails, the handler
  answers 500 and leaves the new User row behind. For a patient, the model
  states this path in `AuthRoutes.Register`: `users` has grown by the account
  and `patients` is unchanged. `Qr.SharedFirstWordCollides` shows that such a
  failure can come from two names that share a first word. A doctor insert can
  fail only through a store failure, which the model does not have.
- Supersede-then-insert is meant to be atomic. The code issues two separate
  writes. The model has no concurrency, so when both succeed
  `CreatePrescription` performs them back to back with nothing in between,
  and the invariant is proved.
  When the insert throws because `expiresAt` is not a valid date, the
  supersession is already committed. The handler answers 500
  "Failed to create prescription" and the patient is left with no ACTIVE
  prescription for that medication. `CreatePrescription` states this path.
- A doctor is meant to answer the change requests addressed to them. The
  respond handler looks the doctor up but never uses the result: any doctor
  can answer any request, whatever its current status.
  `DoctorRoutes.Respond` states this, and `DoctorRoutes.DismissedCanBeAnsweredAgain`
  shows that no status is final.

## Model

| member | source | states |
|---|---|---|
| Common.ParseRole | backend/src/routes/auth.js:19-21 | exactly the strings "DOCTOR" and "PATIENT" name a role; every other string is rejected |
| Common.RoleName | backend/src/routes/auth.js:31 | the role stored on an account parses back to the same role |
| Query.Filter | backend/src/routes/patient.js:23-24 | `findMany` with a `where` keeps exactly the rows satisfying it, and no more rows than the table |
| Query.FilterSelects | backend/src/routes/patient.js:23-24 | the filtered rows are the satisfying rows with their multiplicities: the multiset of the result is the satisfying part of the table's |
| Query.FilterAppend | backend/src/routes/auth.js:36 | filtering a table with one more row is filtering the table and then that row |
| Query.FilterKeepsAll | backend/src/routes/auth.js:36 | a delete whose condition matches no other row leaves those rows as they were |
| Query.First | backend/src/routes/auth.js:23 | `findUnique` returns a row of the table satisfying the condition, and nothing exactly when no row does |
| Query.FirstAppend | backend/src/routes/auth.js:86 | a row appended after the earlier matches does not change the lookup; with no earlier match the lookup finds it |
| Query.IndexWhere | backend/src/routes/doctor.js:229-230 | the position of the first row with the id, or none when no row has it |
| Query.Sort | backend/src/routes/patient.js:28 | the ordering is a permutation of its input, adjacently ordered for a total comparison |
| Query.AdjacentSortedIsSorted | backend/src/routes/patient.js:28 | for a transitive comparison, adjacently ordered implies every pair is ordered |
| Query.NewestFirst | backend/src/routes/patient.js:28 | `orderBy: desc` on a timestamp is a permutation of the rows with non-increasing timestamps |
| Query.LexLeTotal | backend/src/routes/doctor.js:91 | any two names are comparable in code-point order |
| Query.LexLeTransitive | backend/src/routes/doctor.js:91 | code-point order on names is transitive |
| Query.LexLeAntisymmetric | backend/src/routes/doctor.js:91 | two names each at most the other are equal |
| Query.ByNameAscending | backend/src/routes/doctor.js:91 | `orderBy: { name: 'asc' }` is a permutation with names in non-decreasing code-point order (binary collation) |
| Query.SelectsSamePredicate | backend/src/routes/doctor.js:53-92 | a selection made with one condition is the selection for any equivalent condition |
| Query.SelectsMembership | backend/src/routes/public.js:17 | a row appears in a selection exactly when it is in the table and satisfies the condition |
| Query.SelectsPermutation | backend/src/routes/doctor.js:91 | reordering a selection keeps it the same selection |
| Store.EmailOfUser | backend/src/routes/doctor.js:62 | the included account email: none exactly when no account has the id, else that account's email |
| Store.Db.Valid | backend/src/routes/auth.js:23-32 | the unique columns of every table and at most one ACTIVE prescription per (patient, medicationName); every writer keeps it |
| Store.Db.constructor | backend/src/middleware/auth.js:4 | the model's starting state: an empty store, which satisfies `Valid` (the source connects to an existing database instead) |
| Store.UniqueAppend | backend/src/routes/auth.js:30-32 | inserting a row whose key no row has keeps the column unique |
| Store.UniqueUpdate | backend/src/routes/doctor.js:229-240 | rewriting a row with the same key keeps the column unique |
| Gate.UpTo | backend/src/middleware/auth.js:12 | the text before the first separator: a prefix without separator, followed by the separator or the end |
| Gate.BearerToken | backend/src/middleware/auth.js:12 | the token follows "Bearer ", contains no space, and is followed by a space or the end of the header |
| Gate.Split | backend/src/middleware/auth.js:12 | `split(' ')` gives at least one piece; `BearerTokenIsSecondComponent` reads the token from it |
| Gate.UpToStopsAtSeparator | backend/src/middleware/auth.js:12 | the text before a separator is read back exactly |
| Gate.BearerTokenIsSecondComponent | backend/src/middleware/auth.js:12 | the token is the second component of `header.split(' ')` |
| Gate.Authenticate | backend/src/middleware/auth.js:6-20 | 401 "No token provided" without a "Bearer " header; otherwise the identity is attached exactly when the token verifies, else 401 "Invalid or expired token" |
| Gate.RequireDoctor | backend/src/middleware/auth.js:22-27 | passes if and only if the role is DOCTOR, otherwise 403 "Doctor access required" |
| Gate.RequirePatient | backend/src/middleware/auth.js:29-34 | passes if and only if the role is PATIENT, otherwise 403 "Patient access required" |
| Gate.NoIdentityPassesBothGates | backend/src/middleware/auth.js:22-34 | no identity passes both role checks |
| Gate.DoctorGate | backend/src/routes/doctor.js:8 | the doctor routes are reached exactly with a verified DOCTOR identity; authentication failures are 401, role failures 403 |
| Gate.PatientGate | backend/src/routes/patient.js:9 | the patient routes are reached exactly with a verified PATIENT identity; authentication failures are 401, role failures 403 |
| Gate.NoHeaderIsUnauthorized | backend/src/middleware/auth.js:7-10 | a request without a header is refused with 401 before either route group |
| Gate.NoHeaderOpensBothGroups | backend/src/middleware/auth.js:22-34 | no header opens both the doctor and the patient routes |
| Qr.TrimStart | backend/src/utils/qr.js:20 | removes exactly the leading run of JavaScript whitespace |
| Qr.TrimEnd | backend/src/utils/qr.js:20 | removes exactly the trailing run of JavaScript whitespace |
| Qr.Trim | backend/src/utils/qr.js:20 | `trim` is empty exactly for a whitespace-only text; otherwise it starts and ends with non-space; it stands in the text with only whitespace before and after it |
| Qr.FirstField | backend/src/utils/qr.js:20 | `split(/\s+/)[0]` is the whitespace-free prefix up to the first whitespace |
| Qr.FirstWord | backend/src/utils/qr.js:20 | `trim().split(/\s+/)[0]`; its meaning is stated by `FirstWordShape` |
| Qr.FirstWordShape | backend/src/utils/qr.js:20 | the first word is whitespace-free and is the whole run of non-space characters after all of the name's leading whitespace; it is empty only when the name is whitespace throughout |
| Qr.WhitespaceNameHasEmptyWord | backend/src/utils/qr.js:20 | a whitespace-only name has an empty first word |
| Qr.UpperChar | backend/src/utils/qr.js:20 | upper-casing maps spaces to spaces and non-spaces to non-spaces |
| Qr.Upper | backend/src/utils/qr.js:20 | upper-casing keeps the length and works character by character |
| Qr.Decimal | backend/src/utils/qr.js:22 | a number prints as a non-empty string of digits |
| Qr.DecimalRoundTrip | backend/src/utils/qr.js:22 | reading the printed digits gives back the number |
| Qr.FourDigitDecimal | backend/src/utils/qr.js:21-22 | every number in [1000, 9999] prints with exactly four digits |
| Qr.Suffix | backend/src/utils/qr.js:21 | the suffix lies in [1000, 9999] |
| Qr.GeneratePatientId | backend/src/utils/qr.js:19-23 | the id is a whitespace-free prefix of the first word's length, a dash, and four digits |
| Qr.SplitPatientId | backend/src/utils/qr.js:22 | reads `${firstName}-${num}` back into its prefix and number; the partner of `GeneratePatientId` through `PatientIdRoundTrip` |
| Qr.PatientIdRoundTrip | backend/src/utils/qr.js:19-23 | the id splits back into exactly the upper-cased first word and the suffix 1000 + draw |
| Qr.WhitespaceNameId | backend/src/utils/qr.js:20-22 | a whitespace-only name gives a five-character id that starts with "-" |
| Qr.SharedFirstWordCollides | backend/src/utils/qr.js:19-23 | no uniqueness is ensured: two different names "c d" and "c e" get the same id from the same draw |
| Qr.FirstWordOfTwoWords | backend/src/utils/qr.js:20 | the first word of a name "c d" is "c" |
| DoctorRoutes.Supersede | backend/src/routes/doctor.js:151-158 | exactly the ACTIVE rows of that patient with exactly that medication name become REPLACED; every other row, of another patient, another name or another status, is unchanged |
| DoctorRoutes.NewPrescription | backend/src/routes/doctor.js:140-170 | 400 when a required field is missing, then 404 without a doctor profile, then 404 for an unknown patient, then 500 for an invalid `expiresAt`; otherwise the caller's doctor id, notes '' by default, expiresAt as given or null, status ACTIVE |
| DoctorRoutes.CreateKeepsAtMostOneActive | backend/src/routes/doctor.js:150-170 | superseding and then inserting keeps at most one ACTIVE prescription per (patient, medicationName) |
| DoctorRoutes.CreateLeavesOnlyNewActive | backend/src/routes/doctor.js:150-170 | after a create no older row of the same course is ACTIVE |
| DoctorRoutes.CreatePrescription | backend/src/routes/doctor.js:136-186 | a failed check leaves the store unchanged; an invalid `expiresAt` answers 500 after the supersession is committed, leaving the course with no ACTIVE row; a success supersedes the course, appends the new row, touches no other table, and keeps every invariant |
| DoctorRoutes.ReplaceCourse | backend/src/routes/doctor.js:151-158 | the `updateMany` as a store write: only the prescriptions table changes, to its superseded form, and every invariant is kept |
| DoctorRoutes.InsertPrescription | backend/src/routes/doctor.js:160-170 | the `create` appends exactly the new row under the next id and keeps every invariant |
| DoctorRoutes.SupersedeKeepsAtMostOneActive | backend/src/routes/doctor.js:151-158 | the `updateMany` alone keeps at most one ACTIVE prescription per (patient, medicationName) |
| DoctorRoutes.ContainsIsSubstring | backend/src/routes/doctor.js:57-58 | `contains` holds exactly when the term occurs at some position of the text |
| DoctorRoutes.Contains | backend/src/routes/doctor.js:57-58 | the case-sensitive `contains` test; its meaning is stated by `ContainsIsSubstring` |
| DoctorRoutes.Matches | backend/src/routes/doctor.js:56-59 | a patient matches when its name or its uniquePatientId contains the term |
| DoctorRoutes.Listed | backend/src/routes/doctor.js:53-82 | with a term, the patients that match it; without one, those with a prescription from this doctor; `ListPatients` selects exactly these |
| DoctorRoutes.Entries | backend/src/routes/doctor.js:61-68 | one entry per listed patient, in order, with its account email and this doctor's latest prescription |
| DoctorRoutes.LatestFrom | backend/src/routes/doctor.js:85-89 | at most one prescription, empty exactly when this doctor never prescribed to the patient, otherwise this doctor's latest |
| DoctorRoutes.DistinctPatientIds | backend/src/routes/doctor.js:73-79 | exactly the patient ids of this doctor's prescriptions, each once |
| DoctorRoutes.SelectPatients | backend/src/routes/doctor.js:53-92 | selects the search matches when a term is given, otherwise the patients this doctor has prescribed to |
| DoctorRoutes.ListPatients | backend/src/routes/doctor.js:44-100 | 404 without a doctor profile; otherwise exactly the listed patients, by name ascending, each with its email and this doctor's latest prescription |
| DoctorRoutes.Record | backend/src/routes/doctor.js:15-29 | all the patient's prescriptions from any doctor, newest first, and all its change requests, newest first |
| DoctorRoutes.FindPatient | backend/src/routes/doctor.js:11-41 | 404 with the registration hint exactly when no patient has the id; otherwise that patient's full record |
| DoctorRoutes.GetPatient | backend/src/routes/doctor.js:103-133 | 404 "Patient not found" exactly when no patient has the id; otherwise that patient's full record |
| DoctorRoutes.DoctorChangeRequests | backend/src/routes/doctor.js:189-208 | 404 without a doctor profile; otherwise exactly the requests addressed to this doctor, newest first |
| DoctorRoutes.ValidateResponse | backend/src/routes/doctor.js:215-225 | the three 400s in their order; admitted exactly for DISMISSED, or RESPONDED with a response text |
| DoctorRoutes.Answered | backend/src/routes/doctor.js:229-235 | sets the status and the response time, keeps the old response when none is sent, and changes nothing else |
| DoctorRoutes.DismissedCanBeAnsweredAgain | backend/src/routes/doctor.js:227-240 | no status is terminal: a dismissed request can still be answered |
| DoctorRoutes.Respond | backend/src/routes/doctor.js:211-251 | a rejected body or an unknown id leaves the store unchanged (400, 500); otherwise exactly the row with the id is answered, whatever its status or doctor |
| PatientRoutes.StatusFilter | backend/src/routes/patient.js:17-21 | the filter applies exactly for ACTIVE, EXPIRED or REPLACED |
| PatientRoutes.OwnPrescriptions | backend/src/routes/patient.js:12-36 | 404 without a patient profile; otherwise exactly the caller's rows (with the status when the filter applies), newest first |
| PatientRoutes.UnknownFilterListsAll | backend/src/routes/patient.js:17-21 | any other status value, or none, lists all of the caller's prescriptions |
| PatientRoutes.OwnProfile | backend/src/routes/patient.js:39-54 | 404 without a patient profile; otherwise the caller's own row and its account email |
| PatientRoutes.FrontendUrl | backend/src/routes/patient.js:62 | `FRONTEND_URL` when set and non-empty, otherwise http://localhost:3000 |
| PatientRoutes.ScanUrl | backend/src/routes/patient.js:63 | the link starts with the frontend URL and "/scan/", and the rest of it is the token |
| PatientRoutes.TokenOfScanUrl | backend/src/routes/patient.js:63 | reads a token exactly from a link with the frontend's "/scan/" prefix, and the token read builds that link back |
| PatientRoutes.ScanUrlRoundTrip | backend/src/routes/patient.js:62-63 | the token is read back from the scan link that carries it |
| PatientRoutes.OwnQr | backend/src/routes/patient.js:57-77 | 404 without a patient profile; otherwise the link is the frontend URL (default http://localhost:3000), "/scan/" and the caller's own token |
| PatientRoutes.NewChangeRequest | backend/src/routes/patient.js:84-105 | 400 without prescription or reason, 404 without a profile, 404 for a prescription that does not exist or is not the caller's; otherwise PENDING, the caller's patient id, and the prescription's doctor |
| PatientRoutes.CreateChangeRequest | backend/src/routes/patient.js:80-121 | an error writes nothing; a success appends exactly the new request and keeps every invariant |
| PatientRoutes.OwnChangeRequests | backend/src/routes/patient.js:124-143 | 404 without a patient profile; otherwise exactly the caller's requests, newest first |
| AuthRoutes.ParseUnsigned | backend/src/routes/auth.js:55 | the unsigned part of `parseInt` (hex prefix, longest digit run, NaN without digits); its meaning is stated by `UnsignedReadsDecimal` |
| AuthRoutes.ParseInt | backend/src/routes/auth.js:55 | `parseInt` without a radix (leading whitespace, one sign); its meaning is stated by `ParseIntReadsDecimal` and `ParseIntReadsNegativeDecimal` |
| AuthRoutes.ProfileAge | backend/src/routes/auth.js:55 | an absent or empty age is stored as 0 |
| AuthRoutes.ProfileAgeReadsDecimal | backend/src/routes/auth.js:55 | an age sent as a printed number, with or without a minus sign, is stored as that number, within the database's integer column |
| AuthRoutes.LeadingDigits | backend/src/routes/auth.js:55 | `parseInt` reads the longest run of digits of the radix |
| AuthRoutes.DigitsValueIsDecimalValue | backend/src/routes/auth.js:55 | in base 10 the digits' value is their decimal value |
| AuthRoutes.AllDigitsAreLeading | backend/src/routes/auth.js:55 | a string of decimal digits is read whole |
| AuthRoutes.UnsignedReadsDecimal | backend/src/routes/auth.js:55 | the unsigned part of `parseInt` reads back a printed number |
| AuthRoutes.ParseIntReadsDecimal | backend/src/routes/auth.js:55 | `parseInt` of a printed age is that age |
| AuthRoutes.ParseIntNegates | backend/src/routes/auth.js:55 | a leading minus negates what follows |
| AuthRoutes.ParseIntReadsNegativeDecimal | backend/src/routes/auth.js:55 | `parseInt` of a printed negative number is that number |
| AuthRoutes.SessionOf | backend/src/routes/auth.js:64-70 | the token claims and the summary are the stored user's id and role, and the summary carries only id, email and role |
| AuthRoutes.ValidateRegistration | backend/src/routes/auth.js:15-26 | 400 for a missing field, then 400 for an unknown role, then 409 for a taken email; admitted exactly otherwise, with the requested role and an email no account has |
| AuthRoutes.NewDoctor | backend/src/routes/auth.js:39-47 | the doctor profile carries the new id, the account, the name, hospital and regNumber sent, and specialization '' by default |
| AuthRoutes.NewPatient | backend/src/routes/auth.js:49-59 | the patient profile carries the new id, the account, the name, token and age; its uniquePatientId reads back as the upper-cased first word and 1000 + draw; gender and phone as sent, '' by default |
| AuthRoutes.PatientInsertFails | backend/src/routes/auth.js:49-59 | within the database's integer column, the patient insert throws exactly when the age is NaN or the generated patient id or the token is already taken |
| AuthRoutes.CreateUser | backend/src/routes/auth.js:30-32 | appends the account and keeps every invariant |
| AuthRoutes.DeleteUser | backend/src/routes/auth.js:36 | deleting the account just created restores the table it was added to |
| AuthRoutes.CreateDoctor | backend/src/routes/auth.js:39-47 | appends the doctor profile and keeps every invariant |
| AuthRoutes.CreatePatient | backend/src/routes/auth.js:49-59 | appends the patient profile and keeps every invariant |
| AuthRoutes.Register | backend/src/routes/auth.js:11-75 | a failed check writes nothing; a doctor without hospital or regNumber leaves no account; otherwise the account and its profile with the defaults, or 500 with the account kept when the patient insert fails; on each path how far `nextId` advanced |
| AuthRoutes.Login | backend/src/routes/auth.js:78-109 | 400 without email or password; success exactly when the account exists and the password matches its hash; every other failure is 401 "Invalid credentials" |
| AuthRoutes.LoginUniformFailure | backend/src/routes/auth.js:86-94 | an unknown email and a wrong password give the same answer |
| AuthRoutes.LoginAfterRegister | backend/src/routes/auth.js:86-104 | the account registration appends can log in, with the session registration answered |
| AuthRoutes.Me | backend/src/routes/auth.js:112-132 | 404 exactly when the id no longer resolves; otherwise the account without its hash (giving the hash back yields the stored row) with its profiles |
| AuthRoutes.UserByIdIgnoresHashes | backend/src/routes/auth.js:114-120 | looking an account up by id does not depend on password hashes |
| AuthRoutes.MeIgnoresHashes | backend/src/routes/auth.js:126-127 | the `/me` answer is the same whatever the stored hashes are |
| PublicRoutes.Card | backend/src/routes/public.js:26-28 | the prescriber's name and hospital, none exactly when no doctor has the row's doctorId |
| PublicRoutes.Medications | backend/src/routes/public.js:18-29 | one selected row per active prescription, in the order of the rows |
| PublicRoutes.LastUpdated | backend/src/routes/public.js:45-47 | the first row's date or null; its meaning is stated by `LastUpdatedIsLatest` |
| PublicRoutes.ActiveRows | backend/src/routes/public.js:16-31 | exactly the patient's ACTIVE prescriptions, newest first |
| PublicRoutes.PublicView | backend/src/routes/public.js:8-54 | 404 for an unknown token; otherwise the patient's name, id, age and gender, and only ACTIVE medications, newest first |
| PublicRoutes.LastUpdatedIsLatest | backend/src/routes/public.js:45-47 | lastUpdated is null exactly when the patient has no active prescription, and otherwise the latest of their dates |
| PublicRoutes.NewestIsMaximum | backend/src/routes/public.js:45-47 | the first row of the descending order has the latest date |
| PublicRoutes.InactiveRowIsHidden | backend/src/routes/public.js:17 | a non-active prescription is never among the selected rows |
| PublicRoutes.HistoryIsHidden | backend/src/routes/public.js:16-31 | adding a non-active prescription never changes the view |
| PublicRoutes.PatientByTokenIgnoresPrivate | backend/src/routes/public.js:9-10 | the lookup by token does not depend on phone or account |
| PublicRoutes.PublicViewIgnoresPrivate | backend/src/routes/public.js:39-48 | the view is the same whatever the phone and the account (hence email) are |
| PublicRoutes.TokenFindsOwner | backend/src/routes/public.js:9-10 | with unique tokens, a patient's token finds that patient |
| PublicRoutes.ScannedLinkOpensOwnRecord | backend/src/routes/patient.js:62-63 | the link a patient is handed opens that patient's own public record |

## Left out

- Audit logging (`logAudit`, backend/src/middleware/audit.js): an awaited write (backend/src/routes/auth.js:62 and 96, backend/src/routes/doctor.js:177 and 242, backend/src/routes/patient.js:112) whose errors audit.js catches and logs (backend/src/middleware/audit.js:14-16), so it changes no answer of the model.
- Password hashing and comparison, token signing and verification with expiry: foreign cryptography. They are parameters, and a token is represented by its claims.
- `Math.random`, `new Date()` and `process.env.FRONTEND_URL`: parameters.
- The QR image (`generateQRDataUrl`, backend/src/utils/qr.js:3-17): a wrapper over the `qrcode` library. `OwnQr` returns the link without the image.
- Concurrency: the supersede and the insert of a prescription are one step, so the race between two simultaneous creates is not represented.
- EXPIRED: no code sets it. It exists only as a stored status that filters can name.
- Most related rows the handlers `include` are not part of the answers. The ones dropped are:
  - the prescriber's name and hospital on a record's prescriptions (backend/src/routes/doctor.js:18-20 and 110-112) and on the patient's own prescriptions (backend/src/routes/patient.js:25-27);
  - the prescription's medication name on a record's change requests (backend/src/routes/doctor.js:24-26 and 116-118);
  - the doctor and patient columns on a created prescription (backend/src/routes/doctor.js:171-174);
  - the patient and prescription columns on the doctor's change requests (backend/src/routes/doctor.js:196-199) and on an answered request (backend/src/routes/doctor.js:236-239);
  - the prescription and doctor columns on the patient's change requests (backend/src/routes/patient.js:106-109 and 131-134).
  Several includes are modelled:
  - the account email (backend/src/routes/doctor.js:16, 62, 84 and 108; backend/src/routes/patient.js:44), in `Record`, `Entries` and `OwnProfile`;
  - the doctor and patient profiles of `/me` (backend/src/routes/auth.js:116-119), in `Me`;
  - a record's nested prescriptions and change requests (backend/src/routes/doctor.js:17-28 and 109-120), in `Record`;
  - the public view's doctor card (backend/src/routes/public.js:26-28), in `Card`.
- Express wiring, CORS, the frontend and the Android shell: no domain logic.
- Database failures other than the ones named below: in the source they land in each handler's catch (500). The model has no failing store.
- JSON `null` in a body is treated like an absent field. Prisma would write `null` for `doctorResponse: null` where the model keeps the old response.
- A `Field` is a string. Non-string JSON values (numbers, objects) in body fields are not modelled.
- The database schema file is not part of this model. The unique columns kept by `Db.Valid` are id, email, each profile's `userId`, `uniquePatientId` and `qrToken`. A duplicate doctor `regNumber` is therefore not a modelled failure.
- DoctorRoutes.CreatePrescription: `new Date(expiresAt)` is taken as already decided: the body's `expiresAt` is absent, a timestamp, or an Invalid Date. Which strings JavaScript's date parser accepts is not modelled.
- AuthRoutes.ParseInt: `parseInt` values beyond the database's integer column (and beyond exact floating-point range) are not rejected as the database would; only NaN makes the patient insert fail.
- AuthRoutes.PatientInsertFails: an age beyond the database's integer column also makes the patient insert throw (500, with the account kept); the model does not list that cause.
- AuthRoutes.ProfileAgeReadsDecimal: holds only within the database's integer column; a larger printed age makes the insert fail instead.
- Qr.UpperChar: `toUpperCase` is modelled on ASCII letters only. Non-ASCII characters (accented Latin letters such as é, other scripts) are left as they are. JavaScript can also lengthen the string ("ß" becomes "SS"), which `Qr.Upper`, keeping the length, does not model.
- Strings are sequences of Unicode code points, where JavaScript strings are sequences of UTF-16 code units. On well-formed text the substring tests, trimming and the patient id's shape give the same answers either way; lone surrogates are not modelled.
- Query.ByNameAscending: sorts in code-point order, which is the database's order only under a binary ("C") collation. Under a locale collation such as en_US.UTF-8, "alice" comes before "Bob", and this model puts "Bob" first.
- DoctorRoutes.ListPatients: orders by `Query.ByNameAscending`, so the order it promises is code-point order, not the database collation's order.
- A doctor profile insert that fails (for instance on a `regNumber` constraint the schema might declare) leaves the new account behind, as the patient case does. The model's store has no such failure, so `AuthRoutes.Register` shows no such path for doctors.
- DoctorRoutes.Contains: the search is case-sensitive, as Prisma's `contains` is without `mode: 'insensitive'` on PostgreSQL; a provider whose `LIKE` ignores case would match more.
- Ids are drawn from a counter, `Db.nextId`, instead of random uuids. Ids the rollback consumed are not reused.
