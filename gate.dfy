/** The authorization gate (backend/src/middleware/auth.js): bearer-header
    parsing, token verification, and the role checks put in front of the
    doctor and patient route groups. */
module Gate {
  import opened Common

  /** The decoded identity `jwt.verify` attaches to the request as `req.user`. */
  datatype Claims = Claims(userId: Id, role: Role)

  const BEARER: string := "Bearer "

  /** The characters of `s` before the first `sep` (all of `s` when there is none). */
  function UpTo(s: string, sep: char): (t: string)
    ensures sep !in t
    ensures |t| <= |s| && s[..|t|] == t
    ensures |t| < |s| ==> s[|t|] == sep
  {
    if s == [] || s[0] == sep then [] else [s[0]] + UpTo(s[1..], sep)
  }

  /** JavaScript's `s.split(sep)` for a one-character separator: the pieces
      between consecutive separators, always at least one. */
  function Split(s: string, sep: char): (r: seq<string>)
    ensures |r| >= 1
    decreases |s|
  {
    var head := UpTo(s, sep);
    if |head| == |s| then [s] else [head] + Split(s[|head| + 1..], sep)
  }

  /** The token of a header that starts with "Bearer ": what follows the
      prefix, up to the next space. */
  function BearerToken(header: string): (token: string)
    requires StartsWith(header, BEARER)
    ensures ' ' !in token
    ensures |BEARER| + |token| <= |header| && header[..|BEARER| + |token|] == BEARER + token
    ensures |BEARER| + |token| < |header| ==> header[|BEARER| + |token|] == ' '
  {
    var token := UpTo(header[|BEARER|..], ' ');
    assert header[..|BEARER| + |token|] == header[..|BEARER|] + header[|BEARER|..][..|token|];
    token
  }

  lemma {:induction false} UpToStopsAtSeparator(p: string, sep: char, rest: string)
    requires sep !in p
    ensures UpTo(p + [sep] + rest, sep) == p
  {
    if p != [] {
      assert (p + [sep] + rest)[1..] == p[1..] + [sep] + rest;
      UpToStopsAtSeparator(p[1..], sep, rest);
    }
  }

  /** The token is exactly the second component of `header.split(' ')`. */
  lemma BearerTokenIsSecondComponent(header: string)
    requires StartsWith(header, BEARER)
    ensures |Split(header, ' ')| >= 2 && Split(header, ' ')[1] == BearerToken(header)
  {
    assert header == "Bearer" + [' '] + header[|BEARER|..];
    UpToStopsAtSeparator("Bearer", ' ', header[|BEARER|..]);
    assert UpTo(header, ' ') == "Bearer";
    var tail := header[|BEARER|..];
    assert Split(header, ' ') == ["Bearer"] + Split(tail, ' ');
    assert Split(tail, ' ')[0] == UpTo(tail, ' ');
  }

  /** `authenticate`: a request without a well-formed bearer header, or whose
      token does not verify, is answered with 401; otherwise the decoded
      identity is attached. `verify` stands for `jwt.verify` with the server's
      secret, which checks the signature and the expiry. */
  function Authenticate(authorization: Field, verify: string -> Option<Claims>): (r: Result<Claims>)
    ensures (authorization.None? || !StartsWith(authorization.value, BEARER)) ==>
              r == Err(Unauthorized("No token provided"))
    ensures r.Ok? <==>
              authorization.Some? && StartsWith(authorization.value, BEARER) &&
              verify(BearerToken(authorization.value)).Some?
    ensures r.Ok? ==> r.value == verify(BearerToken(authorization.value)).value
    ensures r.Err? && authorization.Some? && StartsWith(authorization.value, BEARER) ==>
              r.error == Unauthorized("Invalid or expired token")
  {
    if !Truthy(authorization) || !StartsWith(authorization.value, BEARER) then
      Err(Unauthorized("No token provided"))
    else
      match verify(BearerToken(authorization.value))
      case Some(decoded) => Ok(decoded)
      case None => Err(Unauthorized("Invalid or expired token"))
  }

  /** `requireDoctor`: passes exactly the DOCTOR identities. */
  function RequireDoctor(user: Claims): (r: Result<Claims>)
    ensures r.Ok? <==> user.role == DOCTOR
    ensures r.Ok? ==> r.value == user
    ensures r.Err? ==> r.error == Forbidden("Doctor access required")
  {
    if user.role != DOCTOR then Err(Forbidden("Doctor access required")) else Ok(user)
  }

  /** `requirePatient`: passes exactly the PATIENT identities. */
  function RequirePatient(user: Claims): (r: Result<Claims>)
    ensures r.Ok? <==> user.role == PATIENT
    ensures r.Ok? ==> r.value == user
    ensures r.Err? ==> r.error == Forbidden("Patient access required")
  {
    if user.role != PATIENT then Err(Forbidden("Patient access required")) else Ok(user)
  }

  lemma NoIdentityPassesBothGates(user: Claims)
    ensures !(RequireDoctor(user).Ok? && RequirePatient(user).Ok?)
  {
  }

  /** `router.use(authenticate, requireDoctor)`: the chain in front of every doctor route. */
  function DoctorGate(authorization: Field, verify: string -> Option<Claims>): (r: Result<Claims>)
    ensures r.Ok? <==> Authenticate(authorization, verify).Ok? && Authenticate(authorization, verify).value.role == DOCTOR
    ensures r.Ok? ==> r.value == Authenticate(authorization, verify).value
    ensures Authenticate(authorization, verify).Err? ==> r.Err? && r.error.Code() == 401
    ensures Authenticate(authorization, verify).Ok? && r.Err? ==> r.error.Code() == 403
  {
    match Authenticate(authorization, verify)
    case Err(e) => Err(e)
    case Ok(user) => RequireDoctor(user)
  }

  /** `router.use(authenticate, requirePatient)`: the chain in front of every patient route. */
  function PatientGate(authorization: Field, verify: string -> Option<Claims>): (r: Result<Claims>)
    ensures r.Ok? <==> Authenticate(authorization, verify).Ok? && Authenticate(authorization, verify).value.role == PATIENT
    ensures r.Ok? ==> r.value == Authenticate(authorization, verify).value
    ensures Authenticate(authorization, verify).Err? ==> r.Err? && r.error.Code() == 401
    ensures Authenticate(authorization, verify).Ok? && r.Err? ==> r.error.Code() == 403
  {
    match Authenticate(authorization, verify)
    case Err(e) => Err(e)
    case Ok(user) => RequirePatient(user)
  }

  /** A request without a bearer header reaches neither route group: it gets 401. */
  lemma NoHeaderIsUnauthorized(verify: string -> Option<Claims>)
    ensures DoctorGate(None, verify) == Err(Unauthorized("No token provided"))
    ensures PatientGate(None, verify) == Err(Unauthorized("No token provided"))
  {
  }

  /** One header never opens both route groups. */
  lemma NoHeaderOpensBothGroups(authorization: Field, verify: string -> Option<Claims>)
    ensures !(DoctorGate(authorization, verify).Ok? && PatientGate(authorization, verify).Ok?)
  {
  }
}
