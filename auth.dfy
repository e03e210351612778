/** The account routes (backend/src/routes/auth.js): registration with its
    ordered checks, the doctor rollback and the profile defaults; login with
    its uniform failure; and `/me`, which returns the account without its
    password hash. */
module AuthRoutes {
  import opened Common
  import opened Query
  import opened Store
  import opened Gate
  import opened Qr

  // ---------------------------------------------------------------------------
  // parseInt

  /** The value of a digit in base 10 or 16. */
  function DigitValue(c: char, radix: nat): Option<nat> {
    if '0' <= c <= '9' then Some(c as int - '0' as int)
    else if radix == 16 && 'a' <= c <= 'f' then Some(c as int - 'a' as int + 10)
    else if radix == 16 && 'A' <= c <= 'F' then Some(c as int - 'A' as int + 10)
    else None
  }

  /** The longest prefix of `s` made of digits of the radix. */
  function LeadingDigits(s: string, radix: nat): (d: string)
    ensures |d| <= |s| && d == s[..|d|]
    ensures forall i :: 0 <= i < |d| ==> DigitValue(d[i], radix).Some?
    ensures |d| < |s| ==> DigitValue(s[|d|], radix).None?
  {
    if s == [] || DigitValue(s[0], radix).None? then [] else [s[0]] + LeadingDigits(s[1..], radix)
  }

  function DigitsValue(d: string, radix: nat): nat
    requires forall i :: 0 <= i < |d| ==> DigitValue(d[i], radix).Some?
  {
    if d == [] then 0
    else radix * DigitsValue(d[..|d| - 1], radix) + DigitValue(d[|d| - 1], radix).value
  }

  /** The unsigned part of `parseInt`: a `0x`/`0X` prefix selects base 16,
      and the longest run of digits that follows is the value; None when no
      digit follows. */
  function ParseUnsigned(u: string): Option<nat>
  {
    var hex := |u| >= 2 && u[0] == '0' && (u[1] == 'x' || u[1] == 'X');
    var radix := if hex then 16 else 10;
    var digits := LeadingDigits(if hex then u[2..] else u, radix);
    if digits == [] then None else Some(DigitsValue(digits, radix))
  }

  /** JavaScript's `parseInt(s)` without a radix: leading whitespace is
      skipped and one sign is read before the unsigned part. None stands for
      NaN. */
  function ParseInt(s: string): Option<int>
  {
    var t := TrimStart(s);
    var signed := t != [] && (t[0] == '-' || t[0] == '+');
    match ParseUnsigned(if signed then t[1..] else t)
    case None => None
    case Some(n) =>
      var value: int := if t[0] == '-' then -(n as int) else n;
      Some(value)
  }

  lemma {:induction false} DigitsValueIsDecimalValue(d: string)
    requires AllDigits(d)
    ensures forall i :: 0 <= i < |d| ==> DigitValue(d[i], 10).Some?
    ensures DigitsValue(d, 10) == DecimalValue(d)
  {
    if d != [] {
      DigitsValueIsDecimalValue(d[..|d| - 1]);
    }
  }

  lemma {:induction false} AllDigitsAreLeading(d: string)
    requires AllDigits(d)
    ensures LeadingDigits(d, 10) == d
  {
    if d != [] {
      AllDigitsAreLeading(d[1..]);
    }
  }

  lemma UnsignedReadsDecimal(n: nat)
    ensures ParseUnsigned(Decimal(n)) == Some(n)
  {
    var d := Decimal(n);
    assert IsDigit(d[0]);
    assert |d| >= 2 ==> IsDigit(d[1]);
    AllDigitsAreLeading(d);
    DigitsValueIsDecimalValue(d);
    DecimalRoundTrip(n);
  }

  /** `parseInt` reads back what a template literal prints. */
  lemma ParseIntReadsDecimal(n: nat)
    ensures ParseInt(Decimal(n)) == Some(n as int)
  {
    var d := Decimal(n);
    assert IsDigit(d[0]) && !IsSpace(d[0]);
    assert TrimStart(d) == d;
    UnsignedReadsDecimal(n);
  }

  /** A minus sign in front negates the unsigned part. */
  lemma ParseIntNegates(u: string, n: nat)
    requires ParseUnsigned(u) == Some(n)
    ensures ParseInt("-" + u) == Some(-(n as int))
  {
    var m := "-" + u;
    assert m[0] == '-' && !IsSpace('-');
    assert TrimStart(m) == m;
    assert m[1..] == u;
  }

  /** ... and the same with a minus sign in front. */
  lemma ParseIntReadsNegativeDecimal(n: nat)
    ensures ParseInt("-" + Decimal(n)) == Some(-(n as int))
  {
    UnsignedReadsDecimal(n);
    ParseIntNegates(Decimal(n), n);
  }

  /** `age ? parseInt(age) : 0`. None is NaN, which the database refuses. */
  function ProfileAge(age: Field): (r: Option<int>)
    ensures !Truthy(age) ==> r == Some(0)
  {
    if Truthy(age) then ParseInt(age.value) else Some(0)
  }

  /** An age sent as a printed number is stored as that number, and so is
      one sent with a minus sign. */
  lemma ProfileAgeReadsDecimal(n: nat)
    ensures ProfileAge(Some(Decimal(n))) == Some(n as int)
    ensures ProfileAge(Some("-" + Decimal(n))) == Some(-(n as int))
  {
    ParseIntReadsDecimal(n);
    ParseIntReadsNegativeDecimal(n);
  }

  // ---------------------------------------------------------------------------
  // POST /register

  datatype RegisterInput = RegisterInput(
    email: Field, password: Field, role: Field, name: Field,
    hospital: Field, regNumber: Field, specialization: Field,
    age: Field, gender: Field, phone: Field)

  /** `{ id, email, role }`: the summary the account routes answer with. */
  datatype UserSummary = UserSummary(id: Id, email: string, role: Role)

  /** The answer of a successful register or login: the token's claims
      (standing for the token `jwt.sign` makes of them) and the summary. */
  datatype Session = Session(claims: Claims, user: UserSummary)

  /** The claims and the summary are both taken from the stored row. */
  function SessionOf(u: User): (s: Session)
    ensures s.claims.userId == s.user.id == u.id && s.claims.role == s.user.role == u.role
    ensures s.user.email == u.email
  {
    Session(Claims(u.id, u.role), UserSummary(u.id, u.email, u.role))
  }

  const REQUIRED_ACCOUNT_FIELDS: string := "Email, password, role, and name are required"
  const BAD_ROLE: string := "Role must be DOCTOR or PATIENT"
  const DOCTOR_FIELDS: string := "Hospital and registration number required for doctors"
  const REGISTRATION_FAILED: string := "Registration failed"

  predicate HasAccountFields(input: RegisterInput) {
    Truthy(input.email) && Truthy(input.password) && Truthy(input.role) && Truthy(input.name)
  }

  /** The checks of lines 15-26, in their order, before anything is written;
      on success the role the account gets. */
  function ValidateRegistration(input: RegisterInput, users: seq<User>): (r: Result<Role>)
    ensures !HasAccountFields(input) ==> r == Err(BadRequest(REQUIRED_ACCOUNT_FIELDS))
    ensures HasAccountFields(input) && ParseRole(input.role.value).None? ==> r == Err(BadRequest(BAD_ROLE))
    ensures (HasAccountFields(input) && ParseRole(input.role.value).Some? &&
             UserByEmail(users, input.email.value).Some?) ==> r == Err(Conflict("Email already registered"))
    ensures r.Ok? <==> HasAccountFields(input) && ParseRole(input.role.value).Some? &&
                       UserByEmail(users, input.email.value).None?
    ensures r.Ok? ==> RoleName(r.value) == input.role.value
    ensures r.Ok? ==> forall i :: 0 <= i < |users| ==> users[i].email != input.email.value
  {
    if !HasAccountFields(input) then Err(BadRequest(REQUIRED_ACCOUNT_FIELDS))
    else match ParseRole(input.role.value)
      case None => Err(BadRequest(BAD_ROLE))
      case Some(role) =>
        if UserByEmail(users, input.email.value).Some? then Err(Conflict("Email already registered"))
        else
          assert forall i :: 0 <= i < |users| ==> users[i] in users;
          Ok(role)
  }

  /** `prisma.doctor.create` of lines 39-47. */
  function NewDoctor(input: RegisterInput, id: Id, userId: Id): (d: Doctor)
    requires Truthy(input.name) && Truthy(input.hospital) && Truthy(input.regNumber)
    ensures d.id == id && d.userId == userId
    ensures d.name == input.name.value && d.hospital == input.hospital.value && d.regNumber == input.regNumber.value
    ensures Truthy(input.specialization) ==> d.specialization == input.specialization.value
    ensures !Truthy(input.specialization) ==> d.specialization == ""
  {
    Doctor(id, userId, input.name.value, input.hospital.value, input.regNumber.value,
      OrElse(input.specialization, ""))
  }

  /** `prisma.patient.create` of lines 49-59; the token is the column's random default. */
  function NewPatient(input: RegisterInput, id: Id, userId: Id, draw: nat, qrToken: string, age: int): (p: Patient)
    requires Truthy(input.name) && draw < 9000
    ensures p.id == id && p.userId == userId && p.name == input.name.value && p.qrToken == qrToken && p.age == age
    ensures SplitPatientId(p.uniquePatientId) == Some((Upper(FirstWord(input.name.value)), 1000 + draw))
    ensures Truthy(input.gender) ==> p.gender == input.gender.value
    ensures !Truthy(input.gender) ==> p.gender == ""
    ensures Truthy(input.phone) ==> p.phone == input.phone.value
    ensures !Truthy(input.phone) ==> p.phone == ""
  {
    PatientIdRoundTrip(input.name.value, draw);
    Patient(id, userId, input.name.value, GeneratePatientId(input.name.value, draw), qrToken, age,
      OrElse(input.gender, ""), OrElse(input.phone, ""))
  }

  /** The patient insert fails, and the handler answers 500, when the age is
      NaN or the patient id or the token is already taken. */
  predicate PatientInsertFails(patients: seq<Patient>, input: RegisterInput, draw: nat, qrToken: string)
    requires Truthy(input.name) && draw < 9000
  {
    || ProfileAge(input.age).None?
    || PatientByUniqueId(patients, GeneratePatientId(input.name.value, draw)).Some?
    || PatientByToken(patients, qrToken).Some?
  }

  // The store writes of the handler, one at a time.

  /** `prisma.user.create`: the new account takes the next id. */
  method CreateUser(db: Db, u: User)
    requires db.Valid()
    requires u.id == db.nextId
    requires forall i :: 0 <= i < |db.users| ==> db.users[i].email != u.email
    modifies db
    ensures db.Valid()
    ensures db.users == old(db.users) + [u] && db.nextId == old(db.nextId) + 1
    ensures db.doctors == old(db.doctors) && db.patients == old(db.patients)
    ensures db.prescriptions == old(db.prescriptions) && db.changeRequests == old(db.changeRequests)
  {
    UniqueAppend(db.users, u, UserIdOf);
    UniqueAppend(db.users, u, EmailOf);
    db.users := db.users + [u];
    db.nextId := db.nextId + 1;
  }

  /** `prisma.user.delete({ where: { id } })` right after the account was created:
      the table loses exactly its last row. */
  method DeleteUser(db: Db, id: Id)
    requires db.Valid()
    requires |db.users| > 0 && db.users[|db.users| - 1].id == id
    modifies db
    ensures db.Valid()
    ensures db.users == Filter(old(db.users), (x: User) => x.id != id)
    ensures db.users == old(db.users)[..|old(db.users)| - 1]
    ensures db.doctors == old(db.doctors) && db.patients == old(db.patients) && db.nextId == old(db.nextId)
    ensures db.prescriptions == old(db.prescriptions) && db.changeRequests == old(db.changeRequests)
  {
    var keep := (x: User) => x.id != id;
    var n := |db.users| - 1;
    var rest := db.users[..n];
    assert db.users == rest + [db.users[n]];
    assert forall i :: 0 <= i < |rest| ==> keep(rest[i]) by {
      forall i | 0 <= i < |rest| ensures keep(rest[i]) {
        assert UserIdOf(db.users[i]) != UserIdOf(db.users[n]);
      }
    }
    FilterAppend(rest, db.users[n], keep);
    FilterKeepsAll(rest, keep);
    db.users := Filter(db.users, keep);
  }

  /** `prisma.doctor.create` for the account just created. */
  method CreateDoctor(db: Db, d: Doctor)
    requires db.Valid()
    requires d.id == db.nextId
    requires forall i :: 0 <= i < |db.doctors| ==> db.doctors[i].userId != d.userId
    requires d.userId < db.nextId
    modifies db
    ensures db.Valid()
    ensures db.doctors == old(db.doctors) + [d] && db.nextId == old(db.nextId) + 1
    ensures db.users == old(db.users) && db.patients == old(db.patients)
    ensures db.prescriptions == old(db.prescriptions) && db.changeRequests == old(db.changeRequests)
  {
    UniqueAppend(db.doctors, d, DoctorIdOf);
    UniqueAppend(db.doctors, d, DoctorUserOf);
    db.doctors := db.doctors + [d];
    db.nextId := db.nextId + 1;
  }

  /** `prisma.patient.create`; the unique columns were checked by the caller. */
  method CreatePatient(db: Db, p: Patient)
    requires db.Valid()
    requires p.id == db.nextId && p.userId < db.nextId
    requires forall i :: 0 <= i < |db.patients| ==> db.patients[i].userId != p.userId
    requires PatientByUniqueId(db.patients, p.uniquePatientId).None? && PatientByToken(db.patients, p.qrToken).None?
    modifies db
    ensures db.Valid()
    ensures db.patients == old(db.patients) + [p] && db.nextId == old(db.nextId) + 1
    ensures db.users == old(db.users) && db.doctors == old(db.doctors)
    ensures db.prescriptions == old(db.prescriptions) && db.changeRequests == old(db.changeRequests)
  {
    assert forall i :: 0 <= i < |db.patients| ==> db.patients[i] in db.patients;
    UniqueAppend(db.patients, p, PatientIdOf);
    UniqueAppend(db.patients, p, PatientUserOf);
    UniqueAppend(db.patients, p, UniquePatientIdOf);
    UniqueAppend(db.patients, p, QrTokenOf);
    db.patients := db.patients + [p];
    db.nextId := db.nextId + 1;
  }

  /** `POST /register`. `passwordHash` is what `bcrypt.hash` made of the
      password; `draw` is the random draw of the patient id; `qrToken` is the
      random default of the token column. */
  method Register(db: Db, input: RegisterInput, passwordHash: string, draw: nat, qrToken: string)
    returns (r: Result<Session>)
    requires db.Valid()
    requires draw < 9000
    modifies db
    ensures db.Valid()
    ensures db.prescriptions == old(db.prescriptions) && db.changeRequests == old(db.changeRequests)
    // Lines 15-26: nothing is written when a check fails.
    ensures ValidateRegistration(input, old(db.users)).Err? ==>
              r == Err(ValidateRegistration(input, old(db.users)).error) && unchanged(db)
    ensures ValidateRegistration(input, old(db.users)).Ok? ==>
              var role := ValidateRegistration(input, old(db.users)).value;
              var u := User(old(db.nextId), input.email.value, passwordHash, role);
              // Lines 34-38: the rollback leaves no account behind.
              && (role == DOCTOR && (!Truthy(input.hospital) || !Truthy(input.regNumber)) ==>
                    && r == Err(BadRequest(DOCTOR_FIELDS))
                    && db.nextId == old(db.nextId) + 1
                    && db.users == old(db.users) && db.doctors == old(db.doctors) && db.patients == old(db.patients))
              // Lines 39-47: the account and its doctor profile.
              && (role == DOCTOR && Truthy(input.hospital) && Truthy(input.regNumber) ==>
                    && r == Ok(SessionOf(u))
                    && db.nextId == old(db.nextId) + 2
                    && db.users == old(db.users) + [u]
                    && db.doctors == old(db.doctors) + [NewDoctor(input, old(db.nextId) + 1, u.id)]
                    && db.patients == old(db.patients))
              // Lines 49-59 fail into the catch of lines 71-74: the account stays.
              && (role == PATIENT && PatientInsertFails(old(db.patients), input, draw, qrToken) ==>
                    && r == Err(ServerError(REGISTRATION_FAILED))
                    && db.nextId == old(db.nextId) + 1
                    && db.users == old(db.users) + [u]
                    && db.doctors == old(db.doctors) && db.patients == old(db.patients))
              // Lines 49-59: the account and its patient profile.
              && (role == PATIENT && !PatientInsertFails(old(db.patients), input, draw, qrToken) ==>
                    && r == Ok(SessionOf(u))
                    && db.nextId == old(db.nextId) + 2
                    && db.users == old(db.users) + [u]
                    && db.doctors == old(db.doctors)
                    && db.patients == old(db.patients) +
                         [NewPatient(input, old(db.nextId) + 1, u.id, draw, qrToken, ProfileAge(input.age).value)])
  {
    var checked := ValidateRegistration(input, db.users);
    if checked.Err? {
      return Err(checked.error);
    }
    var role := checked.value;
    var user := User(db.nextId, input.email.value, passwordHash, role);
    CreateUser(db, user);

    if role == DOCTOR {
      if !Truthy(input.hospital) || !Truthy(input.regNumber) {
        DeleteUser(db, user.id);
        return Err(BadRequest(DOCTOR_FIELDS));
      }
      var doctor := NewDoctor(input, db.nextId, user.id);
      assert forall i :: 0 <= i < |db.doctors| ==> DoctorUserOf(db.doctors[i]) < user.id + 1;
      CreateDoctor(db, doctor);
    } else {
      var age := ProfileAge(input.age);
      var uniquePatientId := GeneratePatientId(input.name.value, draw);
      if age.None? || PatientByUniqueId(db.patients, uniquePatientId).Some? || PatientByToken(db.patients, qrToken).Some? {
        return Err(ServerError(REGISTRATION_FAILED));
      }
      CreatePatient(db, NewPatient(input, db.nextId, user.id, draw, qrToken, age.value));
    }
    r := Ok(SessionOf(user));
  }

  // ---------------------------------------------------------------------------
  // POST /login

  const REQUIRED_CREDENTIALS: string := "Email and password are required"
  const INVALID_CREDENTIALS: string := "Invalid credentials"

  /** `POST /login`. `compare` stands for `bcrypt.compare`. An unknown email
      and a wrong password get the same answer. */
  function Login(users: seq<User>, email: Field, password: Field, compare: (string, string) -> bool)
    : (r: Result<Session>)
    ensures !Truthy(email) || !Truthy(password) ==> r == Err(BadRequest(REQUIRED_CREDENTIALS))
    ensures Truthy(email) && Truthy(password) ==>
              (r.Ok? <==> UserByEmail(users, email.value).Some? &&
                          compare(password.value, UserByEmail(users, email.value).value.passwordHash))
    ensures Truthy(email) && Truthy(password) && r.Err? ==> r.error == Unauthorized(INVALID_CREDENTIALS)
    ensures r.Ok? ==> var u := UserByEmail(users, email.value).value;
              u in users && u.email == email.value && r.value == SessionOf(u)
  {
    if !Truthy(email) || !Truthy(password) then Err(BadRequest(REQUIRED_CREDENTIALS))
    else match UserByEmail(users, email.value)
      case None => Err(Unauthorized(INVALID_CREDENTIALS))
      case Some(user) =>
        if !compare(password.value, user.passwordHash) then Err(Unauthorized(INVALID_CREDENTIALS))
        else Ok(SessionOf(user))
  }

  /** A caller cannot tell an unregistered email from a registered one with
      the wrong password. */
  lemma LoginUniformFailure(
    users: seq<User>, users': seq<User>, email: string, password: string, compare: (string, string) -> bool)
    requires UserByEmail(users, email).None?
    requires UserByEmail(users', email).Some? && !compare(password, UserByEmail(users', email).value.passwordHash)
    ensures Login(users, Some(email), Some(password), compare) == Login(users', Some(email), Some(password), compare)
  {
  }

  /** The account `Register` appends lets its owner log in, with the same
      session the registration answered. */
  lemma {:induction false} LoginAfterRegister(
    users: seq<User>, u: User, password: string, compare: (string, string) -> bool)
    requires UserByEmail(users, u.email).None?
    requires u.email != "" && password != "" && compare(password, u.passwordHash)
    ensures Login(users + [u], Some(u.email), Some(password), compare) == Ok(SessionOf(u))
  {
    FirstAppend(users, u, (x: User) => x.email == u.email);
  }

  // ---------------------------------------------------------------------------
  // GET /me

  /** The account with its profiles and without `passwordHash`. */
  datatype SafeUser = SafeUser(id: Id, email: string, role: Role, doctor: Option<Doctor>, patient: Option<Patient>)

  /** The row the safe view was made from, given back its hash. */
  function WithHash(s: SafeUser, passwordHash: string): User {
    User(s.id, s.email, passwordHash, s.role)
  }

  /** `GET /me` for the identity `authenticate` attached. */
  function Me(users: seq<User>, doctors: seq<Doctor>, patients: seq<Patient>, userId: Id): (r: Result<SafeUser>)
    ensures r.Err? <==> UserById(users, userId).None?
    ensures r.Err? ==> r.error == NotFound("User not found")
    ensures r.Ok? ==> var u := UserById(users, userId).value;
              u in users && u.id == userId && WithHash(r.value, u.passwordHash) == u
    ensures r.Ok? ==> r.value.doctor == DoctorByUser(doctors, userId) && r.value.patient == PatientByUser(patients, userId)
  {
    match UserById(users, userId)
    case None => Err(NotFound("User not found"))
    case Some(u) => Ok(SafeUser(u.id, u.email, u.role, DoctorByUser(doctors, u.id), PatientByUser(patients, u.id)))
  }

  /** Two tables that differ at most in the password hashes. */
  predicate SameButHashes(users: seq<User>, users': seq<User>) {
    |users| == |users'| &&
    forall i :: 0 <= i < |users| ==> users'[i] == users[i].(passwordHash := users'[i].passwordHash)
  }

  lemma {:induction false} UserByIdIgnoresHashes(users: seq<User>, users': seq<User>, userId: Id)
    requires SameButHashes(users, users')
    ensures UserById(users, userId).None? <==> UserById(users', userId).None?
    ensures UserById(users, userId).Some? ==>
              UserById(users', userId).value == UserById(users, userId).value.(passwordHash := UserById(users', userId).value.passwordHash)
  {
    if users != [] {
      assert SameButHashes(users[1..], users'[1..]);
      UserByIdIgnoresHashes(users[1..], users'[1..], userId);
    }
  }

  /** Nothing of the hash reaches the answer: `/me` is the same whatever the hashes are. */
  lemma MeIgnoresHashes(users: seq<User>, users': seq<User>, doctors: seq<Doctor>, patients: seq<Patient>, userId: Id)
    requires SameButHashes(users, users')
    ensures Me(users, doctors, patients, userId) == Me(users', doctors, patients, userId)
  {
    UserByIdIgnoresHashes(users, users', userId);
  }
}
