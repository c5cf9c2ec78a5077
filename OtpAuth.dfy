/**
 * The e-mail one-time-password sign-up and the password login
 * (server/routes/auth.ts). `otpStore` holds at most one pending sign-up per
 * e-mail address; `/send-otp` writes or overwrites it, `/verify-otp` expires
 * or consumes it. The user table, bcrypt, the mailer and zod's e-mail test
 * are outside the model: they enter as parameters (`users`, `matches`,
 * `hashed`, `insert`, `mailSent`, `isEmail`), and so do the clock (`now`, in
 * milliseconds) and `Math.random()` (`random`).
 */
module OtpAuth {

  import opened Text
  import opened Request

  /** An OTP lives five minutes. */
  const OtpLifetimeMs: int := 5 * 60 * 1000

  /** The verify schema accepts only OTPs of this length. */
  const OtpLength: nat := 6

  datatype Pending = Pending(otp: string, expiresAt: int, firstName: string, lastName: string, password: string)

  /** A row of the remote `users` table. */
  datatype UserRow = UserRow(id: string, email: string, passwordHash: string, firstName: string, lastName: string)

  datatype PublicUser = PublicUser(id: string, email: string, firstName: string, lastName: string)

  datatype ReplyBody = Message(text: string) | Failure(error: string) | Account(user: PublicUser) | Exists(found: bool)

  datatype Reply = Reply(status: nat, body: ReplyBody)

  /** The outcome of the remote insert of a new user. */
  datatype InsertOutcome = Inserted(id: string) | InsertFailed(message: string)

  datatype SignupBody = SignupBody(email: Field, password: Field, firstName: Field, lastName: Field)

  datatype OtpBody = OtpBody(email: Field, otp: Field)

  datatype LoginBody = LoginBody(email: Field, password: Field)

  datatype Signup = Signup(email: string, password: string, firstName: string, lastName: string)

  // -------------------------------------------------------------- schemas

  /**
   * The send-otp schema: an e-mail, a password of at least 6 and names of at
   * least 1 UTF-16 code units (zod's `min` counts `length`).
   */
  function ParseSignup(b: SignupBody, isEmail: string -> bool): (r: Option<Signup>)
    ensures r.Some? <==> && b.email.Str? && isEmail(b.email.s) && b.password.Str? && Utf16Length(b.password.s) >= 6
                         && b.firstName.Str? && Utf16Length(b.firstName.s) >= 1
                         && b.lastName.Str? && Utf16Length(b.lastName.s) >= 1
    ensures r.Some? ==> r.value == Signup(b.email.s, b.password.s, b.firstName.s, b.lastName.s)
  {
    if && b.email.Str? && isEmail(b.email.s) && b.password.Str? && Utf16Length(b.password.s) >= 6
       && b.firstName.Str? && Utf16Length(b.firstName.s) >= 1 && b.lastName.Str? && Utf16Length(b.lastName.s) >= 1
    then Some(Signup(b.email.s, b.password.s, b.firstName.s, b.lastName.s))
    else None
  }

  /** The verify schema: an e-mail and an OTP of exactly six UTF-16 code units. */
  function ParseOtp(b: OtpBody, isEmail: string -> bool): (r: Option<(string, string)>)
    ensures r.Some? <==> b.email.Str? && isEmail(b.email.s) && b.otp.Str? && Utf16Length(b.otp.s) == OtpLength
    ensures r.Some? ==> r.value == (b.email.s, b.otp.s)
  {
    if b.email.Str? && isEmail(b.email.s) && b.otp.Str? && Utf16Length(b.otp.s) == OtpLength
    then Some((b.email.s, b.otp.s))
    else None
  }

  /** The login schema: an e-mail and a non-empty password. */
  function ParseLogin(b: LoginBody, isEmail: string -> bool): (r: Option<(string, string)>)
    ensures r.Some? <==> b.email.Str? && isEmail(b.email.s) && b.password.Str? && Utf16Length(b.password.s) >= 1
    ensures r.Some? ==> r.value == (b.email.s, b.password.s)
  {
    if b.email.Str? && isEmail(b.email.s) && b.password.Str? && Utf16Length(b.password.s) >= 1
    then Some((b.email.s, b.password.s))
    else None
  }

  // ------------------------------------------------------------- the OTP

  /**
   * `Math.floor(100000 + Math.random() * 900000)`, computed on exact reals:
   * for a draw in [0, 1) it is an integer in [100000, 999999].
   */
  function OtpValue(random: real): (r: int)
    ensures 0.0 <= random < 1.0 ==> 100000 <= r <= 999999
  {
    var x := 100000.0 + random * 900000.0;
    assert 0.0 <= random < 1.0 ==> 100000.0 <= x < 1000000.0;
    x.Floor
  }

  /** The OTP as sent and stored: its decimal text. */
  function OtpText(random: real): string
    requires 0.0 <= random < 1.0
  {
    DecimalString(OtpValue(random))
  }

  /** A generated OTP is six decimal digits, so it passes the verify schema's length test. */
  lemma OtpIsSixDigits(random: real)
    requires 0.0 <= random < 1.0
    ensures |OtpText(random)| == OtpLength
    ensures AllDigits(OtpText(random))
    ensures Utf16Length(OtpText(random)) == OtpLength
  {
    assert Pow10(5) == 100000 && Pow10(6) == 1000000;
    DecimalLength(OtpValue(random), 6);
    DigitsUtf16Length(OtpText(random));
  }

  /**
   * zod counts UTF-16 code units: three emoji are six units, so they make an
   * acceptable password although they are only three characters.
   */
  lemma AstralPasswordIsLongEnough(email: string, isEmail: string -> bool)
    requires isEmail(email)
    ensures ParseSignup(SignupBody(Str(email), Str("\U{1F600}\U{1F600}\U{1F600}"), Str("A"), Str("B")), isEmail).Some?
  {
    ThreeAstralsAreSixUnits();
  }

  // --------------------------------------------------- stateless endpoints

  /** `/check-email`: whether some user has the given address (a non-string finds none). */
  function CheckEmail(email: Field, users: map<string, UserRow>): (r: Reply)
    ensures r.status == 200
    ensures r.body == Exists(email.Str? && email.s in users)
  {
    Reply(200, Exists(email.Str? && email.s in users))
  }

  function PublicView(u: UserRow): PublicUser
  {
    PublicUser(u.id, u.email, u.firstName, u.lastName)
  }

  /**
   * `/login`: 400 for a body failing the schema, 404 when no user has the
   * address, 401 when the password does not match the stored hash, and 200
   * with the user otherwise. `matches(password, hash)` stands for `bcrypt.compare`.
   */
  function Login(body: LoginBody, isEmail: string -> bool, users: map<string, UserRow>,
                 matches: (string, string) -> bool): (r: Reply)
    ensures r.status in {200, 400, 401, 404}
    ensures r.status == 400 <==> ParseLogin(body, isEmail).None?
    ensures r.status == 404 <==> ParseLogin(body, isEmail).Some? && body.email.s !in users
    ensures r.status == 401 <==> && ParseLogin(body, isEmail).Some? && body.email.s in users
                                 && !matches(body.password.s, users[body.email.s].passwordHash)
    ensures r.status == 200 <==> && ParseLogin(body, isEmail).Some? && body.email.s in users
                                 && matches(body.password.s, users[body.email.s].passwordHash)
    ensures r.status == 200 ==> r.body == Account(PublicView(users[body.email.s]))
  {
    match ParseLogin(body, isEmail)
    case None => Reply(400, Failure("Invalid request"))
    case Some((email, password)) =>
      if email !in users then Reply(404, Failure("Account not found"))
      else if !matches(password, users[email].passwordHash) then Reply(401, Failure("Invalid password"))
      else Reply(200, Account(PublicView(users[email])))
  }

  // ---------------------------------------------------- the pending store

  class OtpServer {
    /** `otpStore`: the pending sign-up for each address. */
    var otpStore: map<string, Pending>

    /** Every pending OTP is six digits, so the owner can always submit it. */
    ghost predicate Valid()
      reads this
    {
      forall email :: email in otpStore ==> |otpStore[email].otp| == OtpLength && AllDigits(otpStore[email].otp)
    }

    constructor ()
      ensures Valid() && otpStore == map[]
    {
      otpStore := map[];
    }

    /**
     * `/send-otp`. A body failing the schema lands in the handler's catch and
     * answers 500; a registered address answers 409 and leaves the store alone.
     * Otherwise the pending record is written (overwriting any earlier one)
     * with an expiry five minutes from `now`, before mailing, so it stays even
     * when mailing fails and 500 is answered.
     */
    method SendOtp(body: SignupBody, isEmail: string -> bool, users: map<string, UserRow>,
                   random: real, now: int, mailSent: bool) returns (r: Reply)
      requires Valid()
      requires 0.0 <= random < 1.0
      modifies this
      ensures Valid()
      ensures r.status in {200, 409, 500}
      ensures ParseSignup(body, isEmail).None? ==> r.status == 500 && otpStore == old(otpStore)
      ensures ParseSignup(body, isEmail).Some? && body.email.s in users ==>
                r.status == 409 && otpStore == old(otpStore)
      ensures ParseSignup(body, isEmail).Some? && body.email.s !in users ==>
                var s := ParseSignup(body, isEmail).value;
                && otpStore == old(otpStore)[s.email := Pending(OtpText(random), now + OtpLifetimeMs,
                                                                s.firstName, s.lastName, s.password)]
                && r.status == (if mailSent then 200 else 500)
    {
      var parsed := ParseSignup(body, isEmail);
      if parsed.None? {
        return Reply(500, Failure("Failed to send OTP"));
      }
      var s := parsed.value;
      if s.email in users {
        return Reply(409, Failure("Email already registered"));
      }
      OtpIsSixDigits(random);
      var otp := OtpText(random);
      otpStore := otpStore[s.email := Pending(otp, now + OtpLifetimeMs, s.firstName, s.lastName, s.password)];
      if mailSent {
        r := Reply(200, Message("OTP sent to email"));
      } else {
        r := Reply(500, Failure("Failed to send OTP"));
      }
    }

    /**
     * `/verify-otp`. 400 for a body failing the schema; 410 when nothing is
     * pending; 410 and the record deleted when `now` is past the expiry (at
     * the expiry instant the OTP is still good); 400 and the record kept for
     * a wrong OTP; 400 when hashing fails; 500 and the record kept when the
     * insert fails; otherwise the record is deleted and the new user returned.
     */
    method VerifyOtp(body: OtpBody, isEmail: string -> bool, now: int, hashed: bool, insert: InsertOutcome)
      returns (r: Reply)
      requires Valid()
      modifies this
      ensures Valid()
      ensures r.status in {200, 400, 410, 500}
      ensures ParseOtp(body, isEmail).None? ==> r.status == 400 && otpStore == old(otpStore)
      ensures ParseOtp(body, isEmail).Some? ==>
                var (email, otp) := ParseOtp(body, isEmail).value;
                if email !in old(otpStore) then
                  r.status == 410 && otpStore == old(otpStore)
                else
                  var p := old(otpStore)[email];
                  if now > p.expiresAt then
                    r.status == 410 && otpStore == old(otpStore) - {email}
                  else if otp != p.otp || !hashed then
                    r.status == 400 && otpStore == old(otpStore)
                  else if insert.InsertFailed? then
                    r == Reply(500, Failure(insert.message)) && otpStore == old(otpStore)
                  else
                    && r == Reply(200, Account(PublicUser(insert.id, email, p.firstName, p.lastName)))
                    && otpStore == old(otpStore) - {email}
    {
      var parsed := ParseOtp(body, isEmail);
      if parsed.None? {
        return Reply(400, Failure("Invalid request"));
      }
      var (email, otp) := parsed.value;
      if email !in otpStore {
        return Reply(410, Failure("OTP expired or invalid. Restart signup."));
      }
      var p := otpStore[email];
      if now > p.expiresAt {
        otpStore := otpStore - {email};
        return Reply(410, Failure("OTP expired"));
      }
      if otp != p.otp {
        return Reply(400, Failure("Invalid OTP"));
      }
      if !hashed {
        return Reply(400, Failure("Invalid request"));
      }
      match insert
      case InsertFailed(message) =>
        r := Reply(500, Failure(message));
      case Inserted(id) =>
        otpStore := otpStore - {email};
        r := Reply(200, Account(PublicUser(id, email, p.firstName, p.lastName)));
    }
  }

  /**
   * The whole sign-up: an OTP sent at `now` and submitted exactly at its
   * expiry instant creates the account and clears the pending record.
   */
  method SignupThenVerifyAtExpiry(server: OtpServer, email: string, password: string, firstName: string,
                                  lastName: string, isEmail: string -> bool, users: map<string, UserRow>,
                                  random: real, now: int, id: string)
    returns (sent: Reply, verified: Reply)
    requires server.Valid()
    requires 0.0 <= random < 1.0
    requires isEmail(email) && email !in users
    requires Utf16Length(password) >= 6 && |firstName| >= 1 && |lastName| >= 1
    modifies server
    ensures server.Valid()
    ensures sent.status == 200
    ensures verified == Reply(200, Account(PublicUser(id, email, firstName, lastName)))
    ensures email !in server.otpStore
  {
    sent := server.SendOtp(SignupBody(Str(email), Str(password), Str(firstName), Str(lastName)),
                           isEmail, users, random, now, true);
    OtpIsSixDigits(random);
    verified := server.VerifyOtp(OtpBody(Str(email), Str(OtpText(random))), isEmail,
                                 now + OtpLifetimeMs, true, Inserted(id));
  }

  /**
   * No attempt limit: a wrong OTP leaves the pending record in place, so the
   * right one is still accepted afterwards, until the expiry.
   */
  method WrongThenRightOtp(server: OtpServer, email: string, wrong: string, isEmail: string -> bool,
                           now: int, id: string)
    returns (first: Reply, second: Reply)
    requires server.Valid()
    requires isEmail(email) && email in server.otpStore
    requires now <= server.otpStore[email].expiresAt
    requires Utf16Length(wrong) == OtpLength && wrong != server.otpStore[email].otp
    modifies server
    ensures server.Valid()
    ensures first.status == 400
    ensures second.status == 200
  {
    var right := server.otpStore[email].otp;
    DigitsUtf16Length(right);
    first := server.VerifyOtp(OtpBody(Str(email), Str(wrong)), isEmail, now, true, Inserted(id));
    second := server.VerifyOtp(OtpBody(Str(email), Str(right)), isEmail, now, true, Inserted(id));
  }
}
