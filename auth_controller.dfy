/** The account controller: sign-up with an emailed one-time code, verification of
    that code, re-sending it, sign-in, the password-reset token and the profile
    edit. Each operation finds a user record, assigns its fields and saves it.
    The generated codes and tokens, the clock, the Joi email rule and the mail
    transports are inputs; password hashing is abstracted to storing and comparing
    the password itself. */
module AuthController {
  import opened Common
  import opened Store
  import EmailService
  import opened AccountMail

  /** Ten minutes in milliseconds: the lifetime of a verification code. */
  const VerificationWindow: int := 10 * 60 * 1000
  /** One hour in milliseconds: the lifetime of a reset token. */
  const ResetWindow: int := 3600000
  const SignupDone: string := "Signup successful! Please check your email for the verification code."

  /** The sign-up body schema: email (its rule is the input `emailError`, None when
      it passes), a password of at least 6 characters and a name. The first failing
      rule gives the message. */
  function SignupCheck(emailError: Option<string>, password: string, name: string): (r: Option<string>)
    ensures r.None? <==> emailError.None? && |password| >= 6 && name != ""
    ensures emailError.Some? ==> r == emailError
    ensures emailError.None? && password == "" ==> r == Some("\"password\" is required")
    ensures emailError.None? && 0 < |password| < 6 ==>
      r == Some("\"password\" length must be at least 6 characters long")
    ensures emailError.None? && |password| >= 6 && name == "" ==> r == Some("\"name\" is required")
  {
    if emailError.Some? then emailError
    else if password == "" then Some("\"password\" is required")
    else if |password| < 6 then Some("\"password\" length must be at least 6 characters long")
    else if name == "" then Some("\"name\" is required")
    else None
  }

  /** `sendTextEmail` of a verification code: sent exactly when the address
      passes `formatEmail` and the transport delivers. */
  method SendCode(email: string, name: string, otp: string, signup: bool, mailError: Option<string>)
    returns (sent: Option<CodeMail>)
    ensures sent.Some? <==> EmailService.MatchesEmailRegex(email) && mailError.None?
    ensures sent.Some? ==> sent.value == CodeMail(email, name, otp, signup)
  {
    var formatted := EmailService.FormatEmail(email);
    if formatted.Err? || mailError.Some? {
      return None;
    }
    return Some(CodeMail(formatted.value, name, otp, signup));
  }

  /** Adding a user whose email nobody has keeps emails unique. */
  lemma AppendKeepsEmailsUnique(users: seq<User>, u: User)
    requires EmailsUnique(users)
    requires FindByEmail(users, u.email).None?
    ensures EmailsUnique(users + [u])
  {
    var after := users + [u];
    forall i, j | 0 <= i < j < |after| ensures after[i].email != after[j].email {
      assert after[i] == users[i];
      if j < |users| {
        assert after[j] == users[j];
      }
    }
  }

  /** The user record sign-up creates: unverified, holding the code until
      `now` plus ten minutes. */
  function NewUser(id: UserId, email: string, password: string, name: string, otp: string, now: int): (u: User)
    ensures !u.isVerified && u.verificationToken == Some(otp) && u.verificationTokenExpires == Some(now + VerificationWindow)
    ensures u.id == id && u.email == email && u.password == password && u.name == name && u.role == "customer"
    ensures u.resetPasswordToken.None? && u.resetPasswordExpires.None?
  {
    User(id, email, password, name, "customer", false, Some(otp), Some(now + VerificationWindow), None, None)
  }

  /** `signup`: validate the body, refuse a taken email, store the new user, then
      mail the code. A mail that fails gives a 500, but the user is already stored. */
  method Signup(db: Database, email: string, password: string, name: string, emailError: Option<string>,
                newId: UserId, otp: string, now: int, mailError: Option<string>)
    returns (r: Result<string, Failure>, sent: Option<CodeMail>)
    requires forall j :: 0 <= j < |db.users| ==> db.users[j].id != newId
    modifies db
    ensures SignupCheck(emailError, password, name).Some? ==>
      r == Err(Failure(400, SignupCheck(emailError, password, name).value)) && db.users == old(db.users)
    ensures SignupCheck(emailError, password, name).None? && FindByEmail(old(db.users), email).Some? ==>
      r == Err(Failure(400, "User already exists")) && db.users == old(db.users)
    ensures SignupCheck(emailError, password, name).None? && FindByEmail(old(db.users), email).None? ==>
      && db.users == old(db.users) + [NewUser(newId, email, password, name, otp, now)]
      && (sent.Some? <==> EmailService.MatchesEmailRegex(email) && mailError.None?)
      && (r == if sent.Some? then Ok(SignupDone) else Err(Failure(500, "Server error")))
    ensures sent.Some? ==> sent.value == CodeMail(email, name, otp, true)
    ensures EmailsUnique(old(db.users)) ==> EmailsUnique(db.users)
    ensures db.products == old(db.products) && db.carts == old(db.carts) && db.orders == old(db.orders)
  {
    sent := None;
    var invalid := SignupCheck(emailError, password, name);
    if invalid.Some? {
      return Err(Failure(400, invalid.value)), sent;
    }
    if FindByEmail(db.users, email).Some? {
      return Err(Failure(400, "User already exists")), sent;
    }
    var u := NewUser(newId, email, password, name, otp, now);
    db.users := db.users + [u];
    assert EmailsUnique(old(db.users)) ==> EmailsUnique(db.users) by {
      if EmailsUnique(old(db.users)) {
        AppendKeepsEmailsUnique(old(db.users), u);
      }
    }
    sent := SendCode(email, name, otp, true, mailError);
    r := if sent.Some? then Ok(SignupDone) else Err(Failure(500, "Server error"));
  }

  /** A user the code `otp` verifies at time `now`: same email, same code, and an
      expiry strictly later than `now`. */
  predicate CodeMatches(u: User, email: string, otp: string, now: int)
  {
    u.email == email && u.verificationToken == Some(otp) && u.verificationTokenExpires.Some? && u.verificationTokenExpires.value > now
  }

  /** The `findOne` of verifyEmail. */
  function FindByCode(users: seq<User>, email: string, otp: string, now: int): (r: Option<nat>)
    ensures r.Some? ==> r.value < |users| && CodeMatches(users[r.value], email, otp, now)
    ensures r.None? <==> forall j :: 0 <= j < |users| ==> !CodeMatches(users[j], email, otp, now)
  {
    FindFirst(users, (u: User) => CodeMatches(u, email, otp, now))
  }

  /** A verified user: the flag set and the code and its expiry cleared. */
  function Verified(u: User): (v: User)
    ensures v.isVerified && v.verificationToken.None? && v.verificationTokenExpires.None?
    ensures v.(isVerified := u.isVerified, verificationToken := u.verificationToken,
               verificationTokenExpires := u.verificationTokenExpires) == u
  {
    u.(isVerified := true, verificationToken := None, verificationTokenExpires := None)
  }

  /** `verifyEmail`: the user the code matches is marked verified and loses the
      code; when no user matches, 400 and nothing changes. With unique emails, the
      code can then never verify again, at any time. */
  method VerifyEmail(db: Database, email: string, otp: string, now: int) returns (r: Result<User, Failure>)
    modifies db
    ensures FindByCode(old(db.users), email, otp, now).None? ==>
      r == Err(Failure(400, "Invalid or expired verification code")) && db.users == old(db.users)
    ensures FindByCode(old(db.users), email, otp, now).Some? ==>
      var k := FindByCode(old(db.users), email, otp, now).value;
      db.users == old(db.users)[k := Verified(old(db.users)[k])] && r == Ok(db.users[k])
    ensures r.Ok? && EmailsUnique(old(db.users)) ==> forall t :: FindByCode(db.users, email, otp, t).None?
    ensures db.products == old(db.products) && db.carts == old(db.carts) && db.orders == old(db.orders)
  {
    var found := FindByCode(db.users, email, otp, now);
    if found.None? {
      return Err(Failure(400, "Invalid or expired verification code"));
    }
    var k := found.value;
    db.users := db.users[k := Verified(db.users[k])];
    r := Ok(db.users[k]);
    if EmailsUnique(old(db.users)) {
      forall t, j | 0 <= j < |db.users| ensures !CodeMatches(db.users[j], email, otp, t) {
        if j != k {
          assert old(db.users)[j].email != old(db.users)[k].email;
        }
      }
    }
  }

  /** `resendVerificationEmail`: an unknown email is 404 and a verified user 400;
      otherwise the code and its expiry are replaced, so only the new code
      verifies, and the new code is mailed. A mail that fails gives a 500 after
      the new code is stored. */
  method ResendVerificationEmail(db: Database, email: string, otp: string, now: int, mailError: Option<string>)
    returns (r: Result<string, Failure>, sent: Option<CodeMail>)
    modifies db
    ensures FindByEmail(old(db.users), email).None? ==> r == Err(Failure(404, "User not found")) && db.users == old(db.users)
    ensures FindByEmail(old(db.users), email).Some? && old(db.users)[FindByEmail(old(db.users), email).value].isVerified ==>
      r == Err(Failure(400, "Email already verified")) && db.users == old(db.users)
    ensures FindByEmail(old(db.users), email).Some? && !old(db.users)[FindByEmail(old(db.users), email).value].isVerified ==>
      var k := FindByEmail(old(db.users), email).value;
      && db.users == old(db.users)[k := old(db.users)[k].(verificationToken := Some(otp),
                                                           verificationTokenExpires := Some(now + VerificationWindow))]
      && (sent.Some? <==> EmailService.MatchesEmailRegex(email) && mailError.None?)
      && (r == if sent.Some? then Ok("Verification code resent successfully") else Err(Failure(500, "Server error")))
      && (sent.Some? ==> sent.value == CodeMail(email, old(db.users)[k].name, otp, false))
    ensures FindByEmail(old(db.users), email).Some? && !old(db.users)[FindByEmail(old(db.users), email).value].isVerified
            && EmailsUnique(old(db.users)) ==>
      OnlyCodeVerifies(db.users, email, otp, now + VerificationWindow)
    ensures db.products == old(db.products) && db.carts == old(db.carts) && db.orders == old(db.orders)
  {
    sent := None;
    var found := FindByEmail(db.users, email);
    if found.None? {
      return Err(Failure(404, "User not found")), sent;
    }
    var k := found.value;
    if db.users[k].isVerified {
      return Err(Failure(400, "Email already verified")), sent;
    }
    var u := db.users[k].(verificationToken := Some(otp), verificationTokenExpires := Some(now + VerificationWindow));
    db.users := db.users[k := u];
    assert EmailsUnique(old(db.users)) ==> OnlyCodeVerifies(db.users, email, otp, now + VerificationWindow) by {
      ResendRetiresOldCode(old(db.users), db.users, email, otp, now + VerificationWindow);
    }
    sent := SendCode(email, u.name, otp, false, mailError);
    r := if sent.Some? then Ok("Verification code resent successfully") else Err(Failure(500, "Server error"));
  }

  /** `otp` is the one code that verifies `email`, and it does so exactly until
      `expires`. */
  ghost predicate OnlyCodeVerifies(users: seq<User>, email: string, otp: string, expires: int)
  {
    && (forall c, t :: c != otp ==> FindByCode(users, email, c, t).None?)
    && (forall t :: FindByCode(users, email, otp, t).Some? <==> t < expires)
  }

  /** The resend step of `NewCodeReplacesOld`, for the user `findOne` finds by
      email. */
  lemma ResendRetiresOldCode(users: seq<User>, after: seq<User>, email: string, otp: string, expires: int)
    requires FindByEmail(users, email).Some?
    requires var k := FindByEmail(users, email).value;
      after == users[k := users[k].(verificationToken := Some(otp), verificationTokenExpires := Some(expires))]
    ensures EmailsUnique(users) ==> OnlyCodeVerifies(after, email, otp, expires)
  {
    if EmailsUnique(users) {
      NewCodeReplacesOld(users, FindByEmail(users, email).value, otp, expires);
    }
  }

  /** With unique emails, giving user k a new code retires every other code for
      that email, and the new one verifies exactly until its expiry. */
  lemma NewCodeReplacesOld(users: seq<User>, k: nat, otp: string, expires: int)
    requires EmailsUnique(users) && k < |users|
    ensures var after := users[k := users[k].(verificationToken := Some(otp), verificationTokenExpires := Some(expires))];
      && (forall c, t :: c != otp ==> FindByCode(after, users[k].email, c, t).None?)
      && (forall t :: FindByCode(after, users[k].email, otp, t).Some? <==> t < expires)
  {
    var after := users[k := users[k].(verificationToken := Some(otp), verificationTokenExpires := Some(expires))];
    var email := users[k].email;
    forall j | 0 <= j < |after| && j != k ensures after[j].email != email {
      assert after[j] == users[j];
    }
    forall t | t < expires ensures FindByCode(after, email, otp, t).Some? {
      assert CodeMatches(after[k], email, otp, t);
    }
  }

  /** `signin`: the body schema (email rule as input, password required), then an
      unknown email or a wrong password is 401, checked before the verification
      flag; a correct password on an unverified user is 403. */
  function Signin(users: seq<User>, email: string, password: string, emailError: Option<string>): (r: Result<User, Failure>)
    ensures emailError.Some? ==> r == Err(Failure(400, emailError.value))
    ensures emailError.None? && password == "" ==> r == Err(Failure(400, "\"password\" is required"))
    ensures emailError.None? && password != "" ==>
      var found := FindByEmail(users, email);
      if found.None? || users[found.value].password != password then r == Err(Failure(401, "Invalid credentials"))
      else if !users[found.value].isVerified then r == Err(Failure(403, "Please verify your email before signing in."))
      else r == Ok(users[found.value])
    ensures r.Ok? ==> r.value in users && r.value.email == email && r.value.password == password && r.value.isVerified
  {
    if emailError.Some? then Err(Failure(400, emailError.value))
    else if password == "" then Err(Failure(400, "\"password\" is required"))
    else
      match FindByEmail(users, email)
      case None => Err(Failure(401, "Invalid credentials"))
      case Some(k) =>
        if users[k].password != password then Err(Failure(401, "Invalid credentials"))
        else if !users[k].isVerified then Err(Failure(403, "Please verify your email before signing in."))
        else Ok(users[k])
  }

  /** The reset link mailed by forgotPassword. */
  function ResetMailHtml(token: string): (html: string)
    ensures Contains(html, token)
  {
    ContainsMiddle("Click <a href=\"http://localhost:3000/pages/reset-password/", token, "\">here</a> to reset your password.");
    "Click <a href=\"http://localhost:3000/pages/reset-password/" + token + "\">here</a> to reset your password."
  }

  /** `forgotPassword`: an unknown email is 404; otherwise the user gets the reset
      token, valid until `now` plus one hour, and the link is mailed through the
      second transport (no address check). A mail that fails gives a 500 after the
      token is stored. */
  method ForgotPassword(db: Database, email: string, token: string, now: int, mailError: Option<string>)
    returns (r: Result<string, Failure>, sent: Option<EmailService.Mail>)
    modifies db
    ensures FindByEmail(old(db.users), email).None? ==> r == Err(Failure(404, "User not found")) && db.users == old(db.users)
    ensures FindByEmail(old(db.users), email).Some? ==>
      var k := FindByEmail(old(db.users), email).value;
      && db.users == old(db.users)[k := old(db.users)[k].(resetPasswordToken := Some(token),
                                                           resetPasswordExpires := Some(now + ResetWindow))]
      && (sent.Some? <==> mailError.None?)
      && (r == if sent.Some? then Ok("Password reset email sent") else Err(Failure(500, "Server error")))
    ensures sent.Some? ==> sent.value.to == email && sent.value.subject == "Password Reset" && Contains(sent.value.html, token)
    ensures db.products == old(db.products) && db.carts == old(db.carts) && db.orders == old(db.orders)
  {
    sent := None;
    var found := FindByEmail(db.users, email);
    if found.None? {
      return Err(Failure(404, "User not found")), sent;
    }
    var k := found.value;
    db.users := db.users[k := db.users[k].(resetPasswordToken := Some(token), resetPasswordExpires := Some(now + ResetWindow))];
    if mailError.Some? {
      return Err(Failure(500, "Server error")), sent;
    }
    sent := Some(EmailService.Mail(email, "Password Reset", "", ResetMailHtml(token)));
    r := Ok("Password reset email sent");
  }

  /** A user the reset token `token` unlocks at time `now`. */
  predicate TokenMatches(u: User, token: string, now: int)
  {
    u.resetPasswordToken == Some(token) && u.resetPasswordExpires.Some? && u.resetPasswordExpires.value > now
  }

  /** The `findOne` of resetPassword. */
  function FindByResetToken(users: seq<User>, token: string, now: int): (r: Option<nat>)
    ensures r.Some? ==> r.value < |users| && TokenMatches(users[r.value], token, now)
    ensures r.None? <==> forall j :: 0 <= j < |users| ==> !TokenMatches(users[j], token, now)
  {
    FindFirst(users, (u: User) => TokenMatches(u, token, now))
  }

  /** `resetPassword`: without a user holding the unexpired token, 400 and nothing
      changes; otherwise that user gets the new password and loses the token, so
      the token cannot reset that account again. */
  method ResetPassword(db: Database, token: string, password: string, now: int) returns (r: Result<string, Failure>)
    modifies db
    ensures FindByResetToken(old(db.users), token, now).None? ==>
      r == Err(Failure(400, "Invalid or expired token")) && db.users == old(db.users)
    ensures FindByResetToken(old(db.users), token, now).Some? ==>
      var k := FindByResetToken(old(db.users), token, now).value;
      && db.users == old(db.users)[k := old(db.users)[k].(password := password, resetPasswordToken := None, resetPasswordExpires := None)]
      && r == Ok("Password reset successful")
      && forall t :: !TokenMatches(db.users[k], token, t)
    ensures db.products == old(db.products) && db.carts == old(db.carts) && db.orders == old(db.orders)
  {
    var found := FindByResetToken(db.users, token, now);
    if found.None? {
      return Err(Failure(400, "Invalid or expired token"));
    }
    var k := found.value;
    db.users := db.users[k := db.users[k].(password := password, resetPasswordToken := None, resetPasswordExpires := None)];
    r := Ok("Password reset successful");
  }

  /** The profile the account endpoint replies with. */
  datatype Profile = Profile(id: UserId, email: string, name: string)

  /** `updateProfile`: an unknown caller is 404; otherwise name and email are
      replaced unless the new value is empty or absent. */
  method UpdateProfile(db: Database, userId: UserId, name: string, email: string) returns (r: Result<Profile, Failure>)
    modifies db
    ensures FindById(old(db.users), userId).None? ==> r == Err(Failure(404, "User not found")) && db.users == old(db.users)
    ensures FindById(old(db.users), userId).Some? ==>
      var k := FindById(old(db.users), userId).value;
      var u := WithProfile(old(db.users)[k], name, email);
      db.users == old(db.users)[k := u] && r == Ok(Profile(u.id, u.email, u.name))
    ensures db.products == old(db.products) && db.carts == old(db.carts) && db.orders == old(db.orders)
  {
    var found := FindById(db.users, userId);
    if found.None? {
      return Err(Failure(404, "User not found"));
    }
    var k := found.value;
    var u := WithProfile(db.users[k], name, email);
    db.users := db.users[k := u];
    r := Ok(Profile(u.id, u.email, u.name));
  }

  /** The code a user signed up with verifies them until it expires, and only until
      then: at or after `now` plus ten minutes it is refused. */
  lemma SignupCodeWindow(users: seq<User>, id: UserId, email: string, password: string, name: string,
                         otp: string, now: int, t: int)
    requires FindByEmail(users, email).None?
    ensures var after := users + [NewUser(id, email, password, name, otp, now)];
      FindByCode(after, email, otp, t).Some? <==> t < now + VerificationWindow
  {
    var after := users + [NewUser(id, email, password, name, otp, now)];
    forall j | 0 <= j < |users| ensures !CodeMatches(after[j], email, otp, t) {
      assert after[j] == users[j];
    }
    assert CodeMatches(after[|users|], email, otp, t) <==> t < now + VerificationWindow;
  }
}
