/** The email-format test shared by the sign-in and forgot-password pages:
    `/\S+@\S+\.\S+/.test(email)`, which is not anchored, so it asks only that some
    part of the text looks like an address. */
module EmailCheck {
  import opened Common

  /** The '@' at `at` and the '.' at `dot` frame a match: a non-space character just
      before the '@', at least one character between them, none of them a space, and
      a non-space character just after the '.'. */
  predicate EmailAt(s: string, at: nat, dot: nat) {
    0 < at && at + 1 < dot && dot + 1 < |s| &&
    s[at] == '@' && s[dot] == '.' &&
    !IsSpace(s[at - 1]) && NoSpace(s[at + 1..dot]) && !IsSpace(s[dot + 1])
  }

  predicate LooksLikeEmail(s: string) {
    exists at, dot | 0 < at < dot < |s| :: EmailAt(s, at, dot)
  }

  /** The regular expression read literally: some non-empty space-free x, y and z
      with `x@y.z` occurring somewhere in s. */
  predicate PatternAt(s: string, p: nat, x: string, y: string, z: string) {
    |x| > 0 && |y| > 0 && |z| > 0 && NoSpace(x) && NoSpace(y) && NoSpace(z) &&
    OccursAt(s, x + "@" + y + "." + z, p)
  }

  ghost predicate PatternFound(s: string) {
    exists p: nat, x: string, y: string, z: string :: PatternAt(s, p, x, y, z)
  }

  /** The check by positions is exactly the regular expression. */
  lemma {:induction false} LooksLikeEmailIff(s: string)
    ensures LooksLikeEmail(s) <==> PatternFound(s)
  {
    if LooksLikeEmail(s) {
      var at, dot :| 0 < at < dot < |s| && EmailAt(s, at, dot);
      PositionsGivePattern(s, at, dot);
    }
    if PatternFound(s) {
      var p: nat, x: string, y: string, z: string :| PatternAt(s, p, x, y, z);
      PatternGivesPositions(s, p, x, y, z);
    }
  }

  lemma {:induction false} PositionsGivePattern(s: string, at: nat, dot: nat)
    requires EmailAt(s, at, dot)
    ensures PatternAt(s, at - 1, [s[at - 1]], s[at + 1..dot], [s[dot + 1]])
  {
    var x, y, z := [s[at - 1]], s[at + 1..dot], [s[dot + 1]];
    assert s[at - 1..dot + 2] == x + "@" + y + "." + z by {
      assert s[at - 1..dot + 2] == [s[at - 1]] + [s[at]] + s[at + 1..dot] + [s[dot]] + [s[dot + 1]];
    }
  }

  lemma {:induction false} PatternGivesPositions(s: string, p: nat, x: string, y: string, z: string)
    requires PatternAt(s, p, x, y, z)
    ensures EmailAt(s, p + |x|, p + |x| + 1 + |y|)
  {
    var w := x + "@" + y + "." + z;
    var at := p + |x|;
    var dot := at + 1 + |y|;
    assert s[p..p + |w|] == w;
    assert s[at] == w[|x|] == '@';
    assert s[at - 1] == w[|x| - 1] == x[|x| - 1];
    assert s[dot] == w[|x| + 1 + |y|] == '.';
    assert s[dot + 1] == w[|x| + 2 + |y|] == z[0];
    assert w[|x| + 1..|x| + 1 + |y|] == y;
    forall k | 0 <= k < |y| ensures s[at + 1..dot][k] == y[k] {
      assert s[at + 1 + k] == w[|x| + 1 + k];
    }
    assert s[at + 1..dot] == y;
  }

  /** The demo address passes, and so does text that merely contains an address. */
  lemma {:induction false} EmailExamplesPass()
    ensures LooksLikeEmail("john.doe@example.com")
    ensures LooksLikeEmail("mail me: a@b.c now")
  {
    assert EmailAt("john.doe@example.com", 8, 16) by {
      assert NoSpace("john.doe@example.com"[9..16]) by {
        assert "john.doe@example.com"[9..16] == "example";
      }
    }
    assert EmailAt("mail me: a@b.c now", 10, 12) by {
      assert "mail me: a@b.c now"[11..12] == "b";
    }
  }

  /** Text too short for the pattern, and a space right before the '@', fail. */
  lemma {:induction false} EmailExamplesFail()
    ensures !LooksLikeEmail("a@b")
    ensures !LooksLikeEmail("a @b.c")
  {
  }
}

/** The sign-in page at `/`: two hard-coded users, a CAPTCHA and checks in a fixed
    order; a match is stored whole as the session. */
module LandingLogin {
  import opened Common
  import opened Seqs
  import opened EmailCheck

  datatype User = User(email: string, password: string, name: string, accountNumber: string)

  function Users(): seq<User> {
    [ User("john.doe@example.com", "password123", "John Doe", "1234567890"),
      User("jane.smith@example.com", "securepass", "Jane Smith", "0987654321") ]
  }

  /** `users.find(u => u.email === email && u.password === password)` */
  function FindUser(email: string, password: string): (r: Option<nat>)
    ensures r.Some? <==> exists i :: 0 <= i < |Users()| && Users()[i].email == email && Users()[i].password == password
    ensures r.Some? ==> r.value < |Users()| && Users()[r.value].email == email && Users()[r.value].password == password
  {
    FindFirst(Users(), (u: User) => u.email == email && u.password == password)
  }

  const BothNeeded := "Please enter both email and password"
  const BadEmail := "Please enter a valid email address"
  const BadCaptcha := "Invalid CAPTCHA. Please try again."
  const BadCredentials := "Invalid email or password"

  /** The checks of `handleLogin`, in order; `captchaValid` is the CAPTCHA library's
      verdict on the typed text. */
  function LoginError(email: string, password: string, captchaValid: bool): Option<string> {
    if email == "" || password == "" then Some(BothNeeded)
    else if !LooksLikeEmail(email) then Some(BadEmail)
    else if !captchaValid then Some(BadCaptcha)
    else if FindUser(email, password).None? then Some(BadCredentials)
    else None
  }

  /** Sign-in succeeds exactly when both fields are filled, the email passes the
      format test, the CAPTCHA is right and a listed user has this email and
      password; an empty field is reported before anything else. */
  lemma {:induction false} LoginSucceedsIff(email: string, password: string, captchaValid: bool)
    ensures LoginError(email, password, captchaValid).None? <==>
      email != "" && password != "" && LooksLikeEmail(email) && captchaValid &&
      exists i :: 0 <= i < |Users()| && Users()[i].email == email && Users()[i].password == password
    ensures email == "" || password == "" ==> LoginError(email, password, captchaValid) == Some(BothNeeded)
  {
  }

  /** The first demo user signs in with the right CAPTCHA, and a wrong password for
      that user is refused as bad credentials. */
  lemma {:induction false} DemoUserSignsIn()
    ensures LoginError("john.doe@example.com", "password123", true).None?
    ensures LoginError("john.doe@example.com", "password124", true) == Some(BadCredentials)
    ensures FindUser("john.doe@example.com", "password123") == Some(0)
  {
    EmailExamplesPass();
    assert Users()[0].email == "john.doe@example.com" && Users()[0].password == "password123";
  }

  class Page {
    var email: string
    var password: string
    var captchaText: string
    var error: string
    /** The `user` entry of browser storage. */
    var session: Option<User>

    constructor ()
      ensures email == "" && password == "" && captchaText == "" && error == "" && session.None?
    {
      email := "";
      password := "";
      captchaText := "";
      error := "";
      session := None;
    }

    /** `handleLogin`: a match is stored as the session, password included; a wrong
        CAPTCHA or wrong credentials also clear the CAPTCHA text; the first two
        checks leave it alone. */
    method Login(captchaValid: bool) returns (signedIn: bool)
      modifies this`error, this`captchaText, this`session
      ensures var e := LoginError(email, password, captchaValid);
        signedIn <==> e.None?
      ensures signedIn ==> session == Some(Users()[FindUser(email, password).value])
      ensures signedIn ==> session.value.email == email && session.value.password == password
      ensures signedIn ==> error == "" && captchaText == old(captchaText)
      ensures !signedIn ==> error == LoginError(email, password, captchaValid).value && session == old(session)
      ensures !signedIn ==>
        captchaText == if error == BadCaptcha || error == BadCredentials then "" else old(captchaText)
    {
      error := "";
      signedIn := false;
      if email == "" || password == "" {
        error := BothNeeded;
        return;
      }
      if !LooksLikeEmail(email) {
        error := BadEmail;
        return;
      }
      if !captchaValid {
        error := BadCaptcha;
        captchaText := "";
        return;
      }
      var found := FindUser(email, password);
      if found.Some? {
        session := Some(Users()[found.value]);
        signedIn := true;
      } else {
        error := BadCredentials;
        captchaText := "";
      }
    }
  }
}

/** The forgot-password page: it checks the email and then always gives the same
    neutral answer. */
module ForgotPassword {
  import opened Common
  import opened EmailCheck

  const EnterEmail := "Please enter your email address"
  const BadEmail := "Please enter a valid email address"
  const Neutral := "If an account exists with this email, you will receive password reset instructions shortly."

  class Page {
    var email: string
    var message: string
    var isLoading: bool
    var error: string

    constructor ()
      ensures email == "" && message == "" && !isLoading && error == ""
    {
      email := "";
      message := "";
      isLoading := false;
      error := "";
    }

    /** `handleSubmit`: an empty or malformed email gets its error and no message; a
        valid one gets the neutral message, whoever owns it, and the field is
        cleared. The simulated request cannot fail, and loading ends either way. */
    method Submit()
      modifies this`error, this`message, this`isLoading, this`email
      ensures old(email) == "" ==> error == EnterEmail && message == "" && email == old(email)
      ensures old(email) != "" && !LooksLikeEmail(old(email)) ==>
        error == BadEmail && message == "" && email == old(email)
      ensures old(email) != "" && LooksLikeEmail(old(email)) ==> error == "" && message == Neutral && email == ""
      ensures isLoading == (old(isLoading) && !(old(email) != "" && LooksLikeEmail(old(email))))
    {
      error := "";
      message := "";
      if email == "" {
        error := EnterEmail;
        return;
      }
      if !LooksLikeEmail(email) {
        error := BadEmail;
        return;
      }
      isLoading := true;
      message := Neutral;
      email := "";
      isLoading := false;
    }
  }
}

/** The account-number sign-in page (`login/page.js`): a sum CAPTCHA, a lock after
    three wrong passwords, a reset that unlocks, and a one-time code. */
module LockoutLogin {
  import opened Common

  const ValidAccount := "1234567890"
  const ValidPassword := "password123"
  const ValidOtp := "123456"

  const OtpMessage := "Incorrect OTP. Please try again."

  /** The messages `handleLogin` and `handleReset` leave in `error`. */
  datatype Notice = NoNotice | LockedNotice | AccountNotice | CaptchaNotice | LockedNowNotice | AttemptsNotice(left: nat)

  /** The text each message shows. */
  function Text(n: Notice): (t: string)
    ensures t == "" <==> n == NoNotice
  {
    match n
    case NoNotice => ""
    case LockedNotice => "Account is locked. Please reset your password to unlock."
    case AccountNotice => "Account number must be 10 digits."
    case CaptchaNotice => "Incorrect CAPTCHA answer."
    case LockedNowNotice => "Account locked after 3 failed attempts. Reset password to unlock."
    case AttemptsNotice(left) => "Invalid account number or password. Attempts left: " + NatToString(left)
  }

  datatype Captcha = Captcha(question: string, answer: string)

  /** `generateCaptcha`, for the two summands drawn. */
  function MakeCaptcha(a: nat, b: nat): Captcha
    requires 1 <= a <= 10 && 1 <= b <= 10
  {
    Captcha(NatToString(a) + " + " + NatToString(b) + " = ?", NatToString(a + b))
  }

  /** The expected answer is the numeral of the sum: a number from 2 to 20, of one or
      two digits. */
  lemma {:induction false} CaptchaAnswer(a: nat, b: nat)
    requires 1 <= a <= 10 && 1 <= b <= 10
    ensures AllDigits(MakeCaptcha(a, b).answer) && ParseDigits(MakeCaptcha(a, b).answer) == a + b
    ensures 2 <= a + b <= 20 && 1 <= |MakeCaptcha(a, b).answer| <= 2
  {
    ParseNatToString(a + b);
    NatToStringAtMost(a + b, 2);
  }

  /** Which branch of `handleLogin` an attempt takes, in the order of its checks. */
  datatype Attempt = IsLocked | BadAccount | CaptchaWrong | Right | Wrong

  function Classify(locked: bool, account: string, password: string, captchaInput: string, answer: string): (k: Attempt)
    ensures k == Right ==> account == ValidAccount && password == ValidPassword && captchaInput == answer
    ensures k == Right || k == Wrong <==> !locked && TenDigits(account) && captchaInput == answer
  {
    if locked then IsLocked
    else if !TenDigits(account) then BadAccount
    else if captchaInput != answer then CaptchaWrong
    else if account == ValidAccount && password == ValidPassword then Right
    else Wrong
  }

  class Page {
    var account: string
    var password: string
    var error: Notice
    var email: string
    var showReset: bool
    var resetSent: bool
    var failedAttempts: nat
    var locked: bool
    var captcha: Captcha
    var captchaInput: string
    var show2FA: bool
    var otp: string
    var otpInput: string
    var otpError: string

    /** The lock follows the count: at most three failures, locked at three. */
    predicate Valid()
      reads this
    {
      failedAttempts <= 3 && (locked <==> failedAttempts == 3)
    }

    constructor (a: nat, b: nat)
      requires 1 <= a <= 10 && 1 <= b <= 10
      ensures Valid() && failedAttempts == 0 && !locked && captcha == MakeCaptcha(a, b)
      ensures account == "" && password == "" && error == NoNotice && email == "" && captchaInput == ""
      ensures !showReset && !resetSent && !show2FA && otp == "" && otpInput == "" && otpError == ""
    {
      account := "";
      password := "";
      error := NoNotice;
      email := "";
      showReset := false;
      resetSent := false;
      failedAttempts := 0;
      locked := false;
      captcha := MakeCaptcha(a, b);
      captchaInput := "";
      show2FA := false;
      otp := "";
      otpInput := "";
      otpError := "";
    }

    /** `handleLogin`, with `a` and `b` the summands of the CAPTCHA drawn when it is
        renewed. Only a wrong password counts as a failure; the third one locks. */
    method Login(a: nat, b: nat)
      requires 1 <= a <= 10 && 1 <= b <= 10
      requires Valid()
      modifies this`error, this`failedAttempts, this`locked, this`captcha, this`captchaInput, this`show2FA, this`otp
      ensures Valid()
      ensures var k := Classify(old(locked), account, password, old(captchaInput), old(captcha).answer);
        && (k == Right ==> show2FA && otp == ValidOtp && error == NoNotice)
        && (k == Wrong ==> failedAttempts == old(failedAttempts) + 1)
        && (k == Wrong ==> error == if failedAttempts == 3 then LockedNowNotice else AttemptsNotice(3 - failedAttempts))
        && (k != Wrong ==> failedAttempts == old(failedAttempts))
        && (k != Right ==> show2FA == old(show2FA) && otp == old(otp))
        && (k == CaptchaWrong || k == Wrong ==> captcha == MakeCaptcha(a, b) && captchaInput == "")
        && (k != CaptchaWrong && k != Wrong ==> captcha == old(captcha) && captchaInput == old(captchaInput))
        && (k == IsLocked ==> error == LockedNotice)
        && (k == BadAccount ==> error == AccountNotice)
        && (k == CaptchaWrong ==> error == CaptchaNotice)
    {
      ghost var k := Classify(locked, account, password, captchaInput, captcha.answer);
      error := NoNotice;
      if locked {
        assert k == IsLocked;
        error := LockedNotice;
        return;
      }
      if |account| != 10 || !TenDigits(account) {
        assert k == BadAccount;
        error := AccountNotice;
        return;
      }
      if captchaInput != captcha.answer {
        assert k == CaptchaWrong;
        error := CaptchaNotice;
        captcha := MakeCaptcha(a, b);
        captchaInput := "";
        return;
      }
      if account == ValidAccount && password == ValidPassword {
        assert k == Right;
        show2FA := true;
        otp := ValidOtp;
        error := NoNotice;
      } else {
        assert k == Wrong;
        var before := failedAttempts;
        failedAttempts := before + 1;
        if before + 1 >= 3 {
          locked := true;
          error := LockedNowNotice;
        } else {
          error := AttemptsNotice(2 - before);
        }
        captcha := MakeCaptcha(a, b);
        captchaInput := "";
      }
    }

    /** `handleReset` with its delayed step collapsed: a non-empty email clears the
        lock and the count and closes the reset form; an empty one does nothing. */
    method Reset()
      requires Valid()
      modifies this`showReset, this`resetSent, this`email, this`locked, this`failedAttempts, this`error
      ensures Valid()
      ensures old(email) != "" ==> !locked && failedAttempts == 0 && error == NoNotice
      ensures old(email) != "" ==> email == "" && !showReset && !resetSent
      ensures old(email) == "" ==> locked == old(locked) && failedAttempts == old(failedAttempts)
      ensures old(email) == "" ==> error == old(error) && showReset == old(showReset) && resetSent == old(resetSent)
    {
      if email != "" {
        resetSent := true;
        showReset := false;
        resetSent := false;
        email := "";
        locked := false;
        failedAttempts := 0;
        error := NoNotice;
      }
    }

    /** `handle2FA`: signs in with the account exactly when the typed code is the
        issued one, and otherwise shows an error. */
    method Verify() returns (signedInAs: Option<string>)
      modifies this`otpError
      ensures signedInAs.Some? <==> otpInput == otp
      ensures signedInAs.Some? ==> signedInAs.value == account && otpError == ""
      ensures signedInAs.None? ==> otpError == OtpMessage
    {
      otpError := "";
      if otpInput == otp {
        signedInAs := Some(account);
      } else {
        otpError := OtpMessage;
        signedInAs := None;
      }
    }
  }
}
