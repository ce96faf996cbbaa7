/** The account and firearm-allocation handlers of the PostgreSQL back end
    (`backend/server.ts`). Each HTTP handler is one method of `Server`; the
    four tables it touches are maps from record id to record. The clock, the
    `Math.random` draw, the bcrypt salt and the outcome of sending the e-mail
    are parameters. */
module AuthServer {
  import opened Common
  import opened Crypto

  // ---------------------------------------------------------------------
  // Records (backend/models/*.ts)
  // ---------------------------------------------------------------------

  /** The `role` column: `ENUM('user', 'admin', 'superadmin')`. */
  datatype Role = UserRole | AdminRole | SuperadminRole

  function RoleName(r: Role): string {
    match r
    case UserRole => "user"
    case AdminRole => "admin"
    case SuperadminRole => "superadmin"
  }

  /** A `users` row. An absent (`null`) licence column is `""`. */
  datatype User = User(
    email: string,
    username: string,
    password: PasswordHash,
    role: Role,
    fullName: string,
    phoneNumber: string,
    licenseNumber: string,
    licenseExpiryDate: string,
    verified: bool)

  /** A `verifications` row. */
  datatype Verification = Verification(userId: nat, code: string, expiresAt: int)

  /** The `status` column of `firearms`: `ENUM('available', 'allocated', 'maintenance')`. */
  datatype FirearmStatus = Available | Allocated | Maintenance

  /** The value a status string stores, or `None` when the database rejects it. */
  function ParseFirearmStatus(s: string): (r: Option<FirearmStatus>)
    ensures r == Some(Available) <==> s == "available"
    ensures r == Some(Allocated) <==> s == "allocated"
    ensures r == Some(Maintenance) <==> s == "maintenance"
  {
    if s == "available" then Some(Available)
    else if s == "allocated" then Some(Allocated)
    else if s == "maintenance" then Some(Maintenance)
    else None
  }

  datatype Firearm = Firearm(name: string, serialNumber: string, model: string, caliber: string, status: FirearmStatus)

  /** The `status` column of `firearm_allocations`: `ENUM('active', 'returned')`. */
  datatype AllocationStatus = Active | Returned

  datatype Allocation = Allocation(
    firearmId: nat,
    guardId: nat,
    allocationDate: int,
    returnDate: Option<int>,
    status: AllocationStatus)

  /** What a successful login sends back: every column but the password. */
  datatype UserView = UserView(
    id: nat,
    email: string,
    username: string,
    role: Role,
    fullName: string,
    phoneNumber: string)

  // ---------------------------------------------------------------------
  // Constants
  // ---------------------------------------------------------------------

  const ADMIN_CODE: string := "122601"
  /** A confirmation code lives `10 * 60 * 1000` ms. */
  const CODE_TTL_MS: int := 600000
  /** The text of an error raised by the database (a unique or enum
      constraint); the handler's `catch` answers 500 with it. */
  const DB_ERROR: string := "database constraint violated"

  const MSG_ADMIN_FIELDS: string := "Email, password, username, full name, and phone number are required for admin accounts"
  const MSG_USER_FIELDS: string := "All fields are required for regular user accounts"
  const MSG_GMAIL: string := "You must use a Gmail account (email must end with @gmail.com)"
  const MSG_ROLE: string := "Role must be \"user\" or \"admin\""
  const MSG_ADMIN_CODE_REQUIRED: string := "Admin code is required"
  const MSG_ADMIN_CODE_INVALID: string := "Invalid admin code"
  const MSG_USER_EXISTS: string := "User already exists"
  const MSG_EMAIL_FAILED: string := "Failed to send confirmation email"
  const MSG_INVALID_CREDENTIALS: string := "Invalid credentials"

  // ---------------------------------------------------------------------
  // The confirmation code
  // ---------------------------------------------------------------------

  /** `Math.floor(100000 + r * 900000)` for a draw `0 <= r < 1`. */
  function CodeValue(r: real): (n: int)
    requires 0.0 <= r < 1.0
    ensures 100000 <= n <= 999999
  {
    (100000.0 + r * 900000.0).Floor
  }

  /** `generateConfirmationCode()`: the decimal string of `CodeValue(r)`,
      always six digits. */
  function ConfirmationCode(r: real): (code: string)
    requires 0.0 <= r < 1.0
    ensures |code| == 6 && AllDigits(code)
    ensures ParseNat(code) == CodeValue(r)
  {
    var n := CodeValue(r);
    assert Pow10(5) == 100000 && Pow10(6) == 1000000;
    NatToStringLength(n, 6);
    ParseNatToString(n);
    NatToString(n)
  }

  // ---------------------------------------------------------------------
  // Registration checks
  // ---------------------------------------------------------------------

  /** The body of `POST /api/register`; an absent field is `""` (both are falsy). */
  datatype RegisterRequest = RegisterRequest(
    email: string,
    password: string,
    username: string,
    role: string,
    adminCode: string,
    fullName: string,
    phoneNumber: string,
    licenseNumber: string,
    licenseExpiryDate: string)

  /** The fields every account needs, and for non-admins the licence too. */
  predicate HasRequiredFields(q: RegisterRequest) {
    q.email != "" && q.password != "" && q.username != "" && q.role != ""
    && q.fullName != "" && q.phoneNumber != ""
    && (q.role != "admin" ==> q.licenseNumber != "" && q.licenseExpiryDate != "")
  }

  /** What a request must satisfy to pass every check, stated on its own. */
  predicate RegisterAcceptable(q: RegisterRequest) {
    HasRequiredFields(q)
    && EndsWith(q.email, "@gmail.com")
    && q.role in {"user", "admin"}
    && (q.role == "admin" ==> q.adminCode == ADMIN_CODE)
  }

  /** The first failing check, in the handler's order, with its 400 message. */
  function RegisterCheck(q: RegisterRequest): (err: Option<string>)
    ensures err.None? <==> RegisterAcceptable(q)
    ensures !HasRequiredFields(q) ==>
      err == Some(if q.role == "admin" then MSG_ADMIN_FIELDS else MSG_USER_FIELDS)
    ensures HasRequiredFields(q) && !EndsWith(q.email, "@gmail.com") ==> err == Some(MSG_GMAIL)
  {
    if !HasRequiredFields(q) then
      Some(if q.role == "admin" then MSG_ADMIN_FIELDS else MSG_USER_FIELDS)
    else if !EndsWith(q.email, "@gmail.com") then Some(MSG_GMAIL)
    else if q.role !in {"user", "admin"} then Some(MSG_ROLE)
    else if q.role == "admin" && q.adminCode == "" then Some(MSG_ADMIN_CODE_REQUIRED)
    else if q.role == "admin" && q.adminCode != ADMIN_CODE then Some(MSG_ADMIN_CODE_INVALID)
    else None
  }

  /** The admin code is looked at only once the fields, the Gmail suffix and
      the role are in order: a wrong code never hides an earlier error. */
  lemma RegisterAdminCodeLast(q: RegisterRequest, code: string)
    requires RegisterCheck(q) in {Some(MSG_ADMIN_CODE_REQUIRED), Some(MSG_ADMIN_CODE_INVALID)}
    ensures HasRequiredFields(q) && EndsWith(q.email, "@gmail.com") && q.role == "admin"
    ensures RegisterCheck(q.(adminCode := code)) ==
      if code == "" then Some(MSG_ADMIN_CODE_REQUIRED)
      else if code != ADMIN_CODE then Some(MSG_ADMIN_CODE_INVALID)
      else None
  {
  }

  /** A user (non-admin) account never needs an admin code. */
  lemma RegisterUserIgnoresAdminCode(q: RegisterRequest, code: string)
    requires q.role == "user"
    ensures RegisterCheck(q.(adminCode := code)) == RegisterCheck(q)
  {
  }

  /** Admin accounts may omit the licence. */
  lemma RegisterAdminLicenceOptional(q: RegisterRequest)
    requires q.role == "admin"
    ensures RegisterCheck(q.(licenseNumber := "", licenseExpiryDate := "")) == RegisterCheck(q)
  {
  }

  function RoleOf(name: string): (r: Role)
    requires name in {"user", "admin"}
    ensures RoleName(r) == name
  {
    if name == "admin" then AdminRole else UserRole
  }

  /** The row `User.create` stores for an accepted request. */
  function NewUser(q: RegisterRequest, h: PasswordHash): (u: User)
    requires RegisterAcceptable(q)
    ensures !u.verified && u.email == q.email && u.username == q.username
    ensures RoleName(u.role) == q.role && u.password == h
  {
    User(q.email, q.username, h, RoleOf(q.role), q.fullName, q.phoneNumber,
         q.licenseNumber, q.licenseExpiryDate, false)
  }

  /** The fields a login response carries; the password is not one of them. */
  function ViewOf(id: nat, u: User): (v: UserView)
    ensures v.id == id && v.email == u.email && v.username == u.username && v.role == u.role
    ensures v.fullName == u.fullName && v.phoneNumber == u.phoneNumber
  {
    UserView(id, u.email, u.username, u.role, u.fullName, u.phoneNumber)
  }

  /** `{ email: identifier }` or `{ phoneNumber: identifier }`. */
  predicate Identifies(u: User, identifier: string) {
    u.email == identifier || u.phoneNumber == identifier
  }

  /** The row a `PUT /api/user/:id` leaves: each truthy field is written,
      the others keep their value. */
  function UpdatedProfile(u: User, fullName: string, phoneNumber: string,
                          licenseNumber: string, licenseExpiryDate: string): (v: User)
    ensures v.fullName == (if fullName != "" then fullName else u.fullName)
    ensures v.phoneNumber == (if phoneNumber != "" then phoneNumber else u.phoneNumber)
    ensures v.licenseNumber == (if licenseNumber != "" then licenseNumber else u.licenseNumber)
    ensures v.licenseExpiryDate == (if licenseExpiryDate != "" then licenseExpiryDate else u.licenseExpiryDate)
    ensures v.email == u.email && v.username == u.username && v.password == u.password
    ensures v.role == u.role && v.verified == u.verified
  {
    u.(fullName := if fullName != "" then fullName else u.fullName,
       phoneNumber := if phoneNumber != "" then phoneNumber else u.phoneNumber,
       licenseNumber := if licenseNumber != "" then licenseNumber else u.licenseNumber,
       licenseExpiryDate := if licenseExpiryDate != "" then licenseExpiryDate else u.licenseExpiryDate)
  }

  /** Sending nothing leaves a profile as it was: the update is idempotent on
      absent fields. */
  lemma UpdatedProfileEmpty(u: User)
    ensures UpdatedProfile(u, "", "", "", "") == u
  {
  }

  /** Applying the same update twice is the same as applying it once. */
  lemma UpdatedProfileIdempotent(u: User, f: string, p: string, n: string, e: string)
    ensures UpdatedProfile(UpdatedProfile(u, f, p, n, e), f, p, n, e) == UpdatedProfile(u, f, p, n, e)
  {
  }

  predicate EmailTaken(users: map<nat, User>, email: string) {
    exists id :: id in users && users[id].email == email
  }

  predicate UsernameTaken(users: map<nat, User>, username: string) {
    exists id :: id in users && users[id].username == username
  }

  predicate SerialTaken(firearms: map<nat, Firearm>, serial: string) {
    exists id :: id in firearms && firearms[id].serialNumber == serial
  }

  /** The verification rows that do not belong to `userId`
      (`Verification.destroy({ where: { userId } })`). */
  function WithoutUser(vs: map<nat, Verification>, userId: nat): (r: map<nat, Verification>)
    ensures forall k :: k in r <==> k in vs && vs[k].userId != userId
    ensures forall k :: k in r ==> r[k] == vs[k]
  {
    map k | k in vs && vs[k].userId != userId :: vs[k]
  }

  // ---------------------------------------------------------------------
  // The server's tables
  // ---------------------------------------------------------------------

  class Server {
    var users: map<nat, User>
    var verifications: map<nat, Verification>
    var firearms: map<nat, Firearm>
    var allocations: map<nat, Allocation>
    /** The next fresh primary key (the database hands out UUIDs). */
    var nextId: nat

    /** Keys are below the counter, and the unique columns are unique. */
    predicate Valid()
      reads this
    {
      (forall id :: id in users ==> id < nextId)
      && (forall id :: id in verifications ==> id < nextId)
      && (forall id :: id in firearms ==> id < nextId)
      && (forall id :: id in allocations ==> id < nextId)
      && (forall a, b :: a in users && b in users && users[a].email == users[b].email ==> a == b)
      && (forall a, b :: a in users && b in users && users[a].username == users[b].username ==> a == b)
      && (forall a, b :: a in firearms && b in firearms && firearms[a].serialNumber == firearms[b].serialNumber ==> a == b)
    }

    constructor ()
      ensures Valid()
      ensures users == map[] && verifications == map[] && firearms == map[] && allocations == map[]
    {
      users, verifications, firearms, allocations := map[], map[], map[], map[];
      nextId := 0;
    }

    /** `POST /api/register`. `r` is the `Math.random` draw, `salt` the
        bcrypt salt and `mailSent` whether `sendConfirmationEmail` succeeded;
        `created` is the new user's id. */
    method Register(q: RegisterRequest, now: int, r: real, salt: nat, mailSent: bool)
      returns (status: int, msg: string, created: Option<nat>)
      requires Valid() && 0.0 <= r < 1.0
      modifies this
      ensures Valid()
      ensures RegisterCheck(q).Some? ==>
        status == 400 && msg == RegisterCheck(q).value && created.None? && unchanged(this)
      ensures RegisterCheck(q).None? && EmailTaken(old(users), q.email) ==>
        status == 400 && msg == MSG_USER_EXISTS && created.None? && unchanged(this)
      ensures RegisterCheck(q).None? && !EmailTaken(old(users), q.email)
              && UsernameTaken(old(users), q.username) ==>
        status == 500 && msg == DB_ERROR && created.None? && unchanged(this)
      ensures RegisterCheck(q).None? && !EmailTaken(old(users), q.email)
              && !UsernameTaken(old(users), q.username) ==>
        var uid := old(nextId);
        created == Some(uid)
        && users == old(users)[uid := NewUser(q, Hash(q.password, salt))]
        && verifications == old(verifications)[uid + 1 := Verification(uid, ConfirmationCode(r), now + CODE_TTL_MS)]
        && firearms == old(firearms) && allocations == old(allocations)
        // a failed e-mail answers 500 but keeps the new rows
        && (status, msg) == if mailSent then (201, "Registration successful! Check your Gmail for confirmation code.")
                            else (500, MSG_EMAIL_FAILED)
    {
      var err := RegisterCheck(q);
      if err.Some? {
        return 400, err.value, None;
      }
      if EmailTaken(users, q.email) {
        return 400, MSG_USER_EXISTS, None;
      }
      if UsernameTaken(users, q.username) {
        return 500, DB_ERROR, None;
      }
      var uid := CreateAccount(q, now, r, salt);
      created := Some(uid);
      if !mailSent {
        return 500, MSG_EMAIL_FAILED, created;
      }
      return 201, "Registration successful! Check your Gmail for confirmation code.", created;
    }

    /** The `User.create` and `Verification.create` of a registration whose
        e-mail and username are both free. */
    method CreateAccount(q: RegisterRequest, now: int, r: real, salt: nat) returns (uid: nat)
      requires Valid() && 0.0 <= r < 1.0
      requires RegisterAcceptable(q) && !EmailTaken(users, q.email) && !UsernameTaken(users, q.username)
      modifies this
      ensures Valid()
      ensures uid == old(nextId) && nextId == old(nextId) + 2
      ensures users == old(users)[uid := NewUser(q, Hash(q.password, salt))]
      ensures verifications == old(verifications)[uid + 1 := Verification(uid, ConfirmationCode(r), now + CODE_TTL_MS)]
      ensures firearms == old(firearms) && allocations == old(allocations)
    {
      uid := nextId;
      users := users[uid := NewUser(q, Hash(q.password, salt))];
      verifications := verifications[uid + 1 := Verification(uid, ConfirmationCode(r), now + CODE_TTL_MS)];
      nextId := nextId + 2;
    }

    /** `POST /api/verify`. The record is found by its code alone; `email`
        only has to be present. */
    method Verify(email: string, code: string, now: int) returns (status: int, msg: string)
      requires Valid()
      modifies this
      ensures Valid()
      ensures email == "" || code == "" <==> msg == "Email and code are required"
      ensures email == "" || code == "" ==> status == 400 && unchanged(this)
      ensures email != "" && code != "" && (forall k :: k in old(verifications) ==> old(verifications)[k].code != code) ==>
        status == 400 && msg == "Invalid confirmation code" && unchanged(this)
      ensures status == 200 || msg == "Confirmation code expired" ==>
        exists k :: k in old(verifications) && old(verifications)[k].code == code
          && verifications == old(verifications) - {k}
          && (msg == "Confirmation code expired" <==> now > old(verifications)[k].expiresAt)
          && (var uid := old(verifications)[k].userId;
              users == if now > old(verifications)[k].expiresAt || uid !in old(users) then old(users)
                       else old(users)[uid := old(users)[uid].(verified := true)])
      // a known code is always used: verified, or refused as expired
      ensures email != "" && code != "" && (exists k :: k in old(verifications) && old(verifications)[k].code == code) ==>
        (status == 200 && msg == "Email verified successfully! You can now login.")
        || (status == 400 && msg == "Confirmation code expired")
      ensures status in {200, 400}
      ensures firearms == old(firearms) && allocations == old(allocations) && nextId == old(nextId)
    {
      if email == "" || code == "" {
        return 400, "Email and code are required";
      }
      if forall k :: k in verifications ==> verifications[k].code != code {
        return 400, "Invalid confirmation code";
      }
      var k :| k in verifications && verifications[k].code == code;
      status, msg := UseCode(k, now);
    }

    /** The rest of `POST /api/verify` once the code was found under `k`:
        the record is deleted either way, and the user is marked verified
        only when the code has not expired. */
    method UseCode(k: nat, now: int) returns (status: int, msg: string)
      requires Valid() && k in verifications
      modifies this
      ensures Valid()
      ensures verifications == old(verifications) - {k}
      ensures var expired := now > old(verifications)[k].expiresAt;
        (status, msg) == (if expired then (400, "Confirmation code expired")
                          else (200, "Email verified successfully! You can now login."))
      ensures var uid := old(verifications)[k].userId;
        users == if now > old(verifications)[k].expiresAt || uid !in old(users) then old(users)
                 else old(users)[uid := old(users)[uid].(verified := true)]
      ensures firearms == old(firearms) && allocations == old(allocations) && nextId == old(nextId)
    {
      var v := verifications[k];
      if now > v.expiresAt {
        verifications := verifications - {k};
        return 400, "Confirmation code expired";
      }
      if v.userId in users {
        users := users[v.userId := users[v.userId].(verified := true)];
      }
      verifications := verifications - {k};
      return 200, "Email verified successfully! You can now login.";
    }

    /** `POST /api/resend-code`. Every earlier code of the user is destroyed
        and one new code is stored, whatever happens to the e-mail. */
    method ResendCode(email: string, now: int, r: real, mailSent: bool) returns (status: int, msg: string)
      requires Valid() && 0.0 <= r < 1.0
      modifies this
      ensures Valid()
      ensures email == "" ==> status == 400 && msg == "Email is required" && unchanged(this)
      ensures email != "" && !EmailTaken(old(users), email) ==>
        status == 404 && msg == "User not found" && unchanged(this)
      ensures email != "" && EmailTaken(old(users), email) ==>
        exists uid :: uid in old(users) && old(users)[uid].email == email
          && verifications == WithoutUser(old(verifications), uid)[old(nextId) := Verification(uid, ConfirmationCode(r), now + CODE_TTL_MS)]
          // exactly one code belongs to the user afterwards
          && (forall k :: k in verifications && verifications[k].userId == uid ==> k == old(nextId))
          && (status, msg) == if mailSent then (200, "Verification code resent to your email") else (500, MSG_EMAIL_FAILED)
      ensures users == old(users) && firearms == old(firearms) && allocations == old(allocations)
    {
      if email == "" {
        return 400, "Email is required";
      }
      if !EmailTaken(users, email) {
        return 404, "User not found";
      }
      var uid :| uid in users && users[uid].email == email;
      ReplaceCode(uid, now, r);
      if !mailSent {
        return 500, MSG_EMAIL_FAILED;
      }
      return 200, "Verification code resent to your email";
    }

    /** The `destroy` of the user's codes and the `create` of a fresh one. */
    method ReplaceCode(uid: nat, now: int, r: real)
      requires Valid() && 0.0 <= r < 1.0
      modifies this
      ensures Valid()
      ensures verifications == WithoutUser(old(verifications), uid)[old(nextId) := Verification(uid, ConfirmationCode(r), now + CODE_TTL_MS)]
      ensures forall k :: k in verifications && verifications[k].userId == uid ==> k == old(nextId)
      ensures nextId == old(nextId) + 1
      ensures users == old(users) && firearms == old(firearms) && allocations == old(allocations)
    {
      verifications := WithoutUser(verifications, uid)[nextId := Verification(uid, ConfirmationCode(r), now + CODE_TTL_MS)];
      nextId := nextId + 1;
    }

    /** `POST /api/login`. `who` is the row `findOne` picked among those whose
        e-mail or phone number is the identifier. An unverified account is
        refused before its password is looked at. */
    method Login(identifier: string, password: string)
      returns (status: int, msg: string, who: Option<nat>, requiresVerification: bool, email: string, view: Option<UserView>)
      ensures identifier == "" || password == "" ==>
        status == 400 && msg == "Email/phone and password are required" && who.None? && view.None?
      ensures who.Some? <==>
        identifier != "" && password != "" && exists id :: id in users && Identifies(users[id], identifier)
      ensures identifier != "" && password != "" && who.None? ==>
        status == 401 && msg == MSG_INVALID_CREDENTIALS && view.None?
      ensures who.Some? ==> who.value in users && Identifies(users[who.value], identifier)
      ensures who.Some? && !users[who.value].verified ==>
        status == 403 && msg == "Please verify your email first" && requiresVerification
        && email == users[who.value].email && view.None?
      ensures who.Some? && users[who.value].verified && !Matches(password, users[who.value].password) ==>
        status == 401 && msg == MSG_INVALID_CREDENTIALS && view.None?
      ensures who.Some? && users[who.value].verified && Matches(password, users[who.value].password) ==>
        status == 200 && msg == "Login successful" && view == Some(ViewOf(who.value, users[who.value]))
      ensures view.Some? <==> status == 200
    {
      requiresVerification, email, view := false, "", None;
      if identifier == "" || password == "" {
        return 400, "Email/phone and password are required", None, false, "", None;
      }
      if forall id :: id in users ==> !Identifies(users[id], identifier) {
        return 401, MSG_INVALID_CREDENTIALS, None, false, "", None;
      }
      var id :| id in users && Identifies(users[id], identifier);
      var u := users[id];
      who := Some(id);
      if !u.verified {
        return 403, "Please verify your email first", who, true, u.email, None;
      }
      if !Matches(password, u.password) {
        return 401, MSG_INVALID_CREDENTIALS, who, false, "", None;
      }
      return 200, "Login successful", who, false, "", Some(ViewOf(id, u));
    }

    /** `PUT /api/user/:id`. */
    method UpdateProfile(id: nat, fullName: string, phoneNumber: string,
                         licenseNumber: string, licenseExpiryDate: string) returns (status: int, msg: string)
      requires Valid()
      modifies this
      ensures Valid()
      ensures id !in old(users) ==> status == 404 && msg == "User not found" && unchanged(this)
      ensures id in old(users) ==>
        status == 200 && msg == "User updated successfully"
        && users == old(users)[id := UpdatedProfile(old(users)[id], fullName, phoneNumber, licenseNumber, licenseExpiryDate)]
      ensures verifications == old(verifications) && firearms == old(firearms)
      ensures allocations == old(allocations) && nextId == old(nextId)
    {
      if id !in users {
        return 404, "User not found";
      }
      users := users[id := UpdatedProfile(users[id], fullName, phoneNumber, licenseNumber, licenseExpiryDate)];
      return 200, "User updated successfully";
    }

    /** `POST /api/firearms`. A missing status means `'available'`; a status
        outside the enum or a serial number already stored is refused by the
        database. The `name` column is the model. */
    method CreateFirearm(serialNumber: string, model: string, caliber: string, status: string)
      returns (code: int, msg: string, created: Option<nat>)
      requires Valid()
      modifies this
      ensures Valid()
      ensures serialNumber == "" || model == "" || caliber == "" ==>
        code == 400 && msg == "Serial number, model, and caliber are required" && created.None? && unchanged(this)
      ensures serialNumber != "" && model != "" && caliber != ""
              && (ParseFirearmStatus(if status == "" then "available" else status).None?
                  || SerialTaken(old(firearms), serialNumber)) ==>
        code == 500 && msg == DB_ERROR && created.None? && unchanged(this)
      ensures serialNumber != "" && model != "" && caliber != ""
              && ParseFirearmStatus(if status == "" then "available" else status).Some?
              && !SerialTaken(old(firearms), serialNumber) ==>
        code == 201 && msg == "Firearm added successfully" && created == Some(old(nextId))
      ensures code == 201 <==> created.Some?
      ensures created.Some? ==>
        var s := ParseFirearmStatus(if status == "" then "available" else status);
        created.value == old(nextId) && s.Some?
        && firearms == old(firearms)[old(nextId) := Firearm(model, serialNumber, model, caliber, s.value)]
      ensures users == old(users) && verifications == old(verifications) && allocations == old(allocations)
    {
      if serialNumber == "" || model == "" || caliber == "" {
        return 400, "Serial number, model, and caliber are required", None;
      }
      var s := ParseFirearmStatus(if status == "" then "available" else status);
      if s.None? || SerialTaken(firearms, serialNumber) {
        return 500, DB_ERROR, None;
      }
      firearms := firearms[nextId := Firearm(model, serialNumber, model, caliber, s.value)];
      created := Some(nextId);
      nextId := nextId + 1;
      return 201, "Firearm added successfully", created;
    }

    /** `PUT /api/firearms/:id`: truthy `status` and `caliber` overwrite; a
        status outside the enum makes the save fail and nothing changes. */
    method UpdateFirearm(id: nat, status: string, caliber: string) returns (code: int, msg: string)
      requires Valid()
      modifies this
      ensures Valid()
      ensures id !in old(firearms) ==> code == 404 && msg == "Firearm not found" && unchanged(this)
      ensures id in old(firearms) && status != "" && ParseFirearmStatus(status).None? ==>
        code == 500 && msg == DB_ERROR && unchanged(this)
      ensures id in old(firearms) && (status == "" || ParseFirearmStatus(status).Some?) ==>
        code == 200 && msg == "Firearm updated successfully"
      ensures code == 200 ==>
        id in old(firearms)
        && (status == "" || ParseFirearmStatus(status).Some?)
        && var f := old(firearms)[id];
        firearms == old(firearms)[id := f.(status := if status != "" then ParseFirearmStatus(status).value else f.status,
                                           caliber := if caliber != "" then caliber else f.caliber)]
      ensures code in {200, 404, 500}
      ensures users == old(users) && verifications == old(verifications) && allocations == old(allocations)
    {
      if id !in firearms {
        return 404, "Firearm not found";
      }
      var f := firearms[id];
      var s := ParseFirearmStatus(status);
      if status != "" && s.None? {
        return 500, DB_ERROR;
      }
      firearms := firearms[id := f.(status := if status != "" then s.value else f.status,
                                    caliber := if caliber != "" then caliber else f.caliber)];
      return 200, "Firearm updated successfully";
    }

    /** `POST /api/firearm-allocation/issue`. The firearm becomes allocated
        whatever its status was; `notes` is not stored. */
    method Issue(firearmId: Option<nat>, guardId: Option<nat>, now: int)
      returns (code: int, msg: string, created: Option<nat>)
      requires Valid()
      modifies this
      ensures Valid()
      ensures firearmId.None? || guardId.None? ==>
        code == 400 && msg == "Firearm ID and Guard ID are required" && created.None? && unchanged(this)
      ensures firearmId.Some? && guardId.Some? && firearmId.value !in old(firearms) ==>
        code == 404 && msg == "Firearm not found" && created.None? && unchanged(this)
      ensures firearmId.Some? && guardId.Some? && firearmId.value in old(firearms) && guardId.value !in old(users) ==>
        code == 404 && msg == "Guard not found" && created.None? && unchanged(this)
      ensures firearmId.Some? && guardId.Some? && firearmId.value in old(firearms) && guardId.value in old(users) ==>
        code == 201 && created == Some(old(nextId))
        && allocations == old(allocations)[old(nextId) := Allocation(firearmId.value, guardId.value, now, None, Active)]
        && firearms == old(firearms)[firearmId.value := old(firearms)[firearmId.value].(status := Allocated)]
      ensures users == old(users) && verifications == old(verifications)
    {
      if firearmId.None? || guardId.None? {
        return 400, "Firearm ID and Guard ID are required", None;
      }
      var fid, gid := firearmId.value, guardId.value;
      if fid !in firearms {
        return 404, "Firearm not found", None;
      }
      if gid !in users {
        return 404, "Guard not found", None;
      }
      allocations := allocations[nextId := Allocation(fid, gid, now, None, Active)];
      created := Some(nextId);
      nextId := nextId + 1;
      firearms := firearms[fid := firearms[fid].(status := Allocated)];
      return 201, "Firearm allocated successfully", created;
    }

    /** `POST /api/firearm-allocation/return`. */
    method Return(allocationId: Option<nat>, now: int) returns (code: int, msg: string)
      requires Valid()
      modifies this
      ensures Valid()
      ensures allocationId.None? ==> code == 400 && msg == "Allocation ID is required" && unchanged(this)
      ensures allocationId.Some? && allocationId.value !in old(allocations) ==>
        code == 404 && msg == "Allocation not found" && unchanged(this)
      ensures allocationId.Some? && allocationId.value in old(allocations) ==>
        var a := old(allocations)[allocationId.value];
        code == 200
        && allocations == old(allocations)[allocationId.value := a.(returnDate := Some(now), status := Returned)]
        && firearms == if a.firearmId in old(firearms)
                       then old(firearms)[a.firearmId := old(firearms)[a.firearmId].(status := Available)]
                       else old(firearms)
      ensures users == old(users) && verifications == old(verifications) && nextId == old(nextId)
    {
      if allocationId.None? {
        return 400, "Allocation ID is required";
      }
      var aid := allocationId.value;
      if aid !in allocations {
        return 404, "Allocation not found";
      }
      var a := allocations[aid];
      allocations := allocations[aid := a.(returnDate := Some(now), status := Returned)];
      if a.firearmId in firearms {
        firearms := firearms[a.firearmId := firearms[a.firearmId].(status := Available)];
      }
      return 200, "Firearm returned successfully";
    }
  }

  /** Issuing and then returning a firearm leaves it available, with the
      allocation closed at the return time. */
  method IssueThenReturn(s: Server, fid: nat, gid: nat, t1: int, t2: int)
    requires s.Valid() && fid in s.firearms && gid in s.users
    modifies s
    ensures s.Valid()
    ensures fid in s.firearms && s.firearms[fid].status == Available
    ensures exists a :: a in s.allocations && s.allocations[a] == Allocation(fid, gid, t1, Some(t2), Returned)
  {
    var c1, m1, created := s.Issue(Some(fid), Some(gid), t1);
    var c2, m2 := s.Return(created, t2);
    assert s.allocations[created.value] == Allocation(fid, gid, t1, Some(t2), Returned);
  }
}
