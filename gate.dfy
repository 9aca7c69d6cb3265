// The passcode gate in front of the search page: one session flag, set
// once by a submission equal to the secret and never cleared.

module Gate {
  import opened Wrappers

  /** Every character is in the ASCII range. */
  predicate IsAscii(s: string)
  {
    forall i :: 0 <= i < |s| ==> s[i] < 128 as char
  }

  /**
   * `hmac.compare_digest` on two `str` values: `None` stands for the
   * TypeError it raises unless both are ASCII; otherwise it is equality.
   */
  function CompareDigest(a: string, b: string): (r: Option<bool>)
    ensures r.None? <==> !(IsAscii(a) && IsAscii(b))
    ensures r == Some(true) <==> IsAscii(b) && a == b
    ensures r == Some(false) <==> IsAscii(a) && IsAscii(b) && a != b
  {
    if IsAscii(a) && IsAscii(b) then Some(a == b) else None
  }

  /** What the login form hands to one run: whether the button was pressed and the passcode box. */
  datatype Attempt = Attempt(submit: bool, password: string)

  /** How one run of `check_password` ends. */
  datatype Outcome =
    | Granted                   // returns True: the flag was already set
    | Rerun                     // the flag was just set and the script restarts
    | Denied(alertShown: bool)  // returns False; the "Access Denied" alert only after a wrong submission
    | Raised                    // compare_digest raised TypeError

  /** One run of `check_password` from flag `unlocked`: its outcome and the flag afterwards. */
  function Check(unlocked: bool, a: Attempt, secret: string): (res: (Outcome, bool))
    ensures res.1 <==> unlocked || (a.submit && IsAscii(secret) && a.password == secret)
    ensures res.0 == Granted <==> unlocked
    ensures res.0 == Rerun <==> !unlocked && res.1
    ensures res.0 == Raised <==> !unlocked && a.submit && !(IsAscii(a.password) && IsAscii(secret))
    ensures res.0.Denied? ==> !res.1 && res.0.alertShown == a.submit
  {
    if unlocked then (Granted, true)
    else if !a.submit then (Denied(false), false)
    else match CompareDigest(a.password, secret)
      case None => (Raised, false)
      case Some(same) => if same then (Rerun, true) else (Denied(true), false)
  }

  /** The flag after a series of runs, each with its own form input. */
  function FlagAfter(unlocked: bool, attempts: seq<Attempt>, secret: string): (after: bool)
    ensures unlocked ==> after
    decreases |attempts|
  {
    if attempts == [] then unlocked
    else FlagAfter(Check(unlocked, attempts[0], secret).1, attempts[1..], secret)
  }

  /** A submission of exactly the secret, which compare_digest accepts. */
  predicate Unlocks(a: Attempt, secret: string)
  {
    a.submit && IsAscii(secret) && a.password == secret
  }

  /** Over any series of runs the flag ends up set exactly when it started set or some run submitted the secret. */
  lemma {:induction false} FlagAfterMeaning(unlocked: bool, attempts: seq<Attempt>, secret: string)
    ensures FlagAfter(unlocked, attempts, secret)
            <==> (unlocked || exists i :: 0 <= i < |attempts| && Unlocks(attempts[i], secret))
    decreases |attempts|
  {
    if attempts != [] {
      var next := Check(unlocked, attempts[0], secret).1;
      FlagAfterMeaning(next, attempts[1..], secret);
      if exists i :: 0 <= i < |attempts[1..]| && Unlocks(attempts[1..][i], secret) {
        var i :| 0 <= i < |attempts[1..]| && Unlocks(attempts[1..][i], secret);
        assert Unlocks(attempts[i + 1], secret);
      }
      if exists i :: 0 <= i < |attempts| && Unlocks(attempts[i], secret) {
        var i :| 0 <= i < |attempts| && Unlocks(attempts[i], secret);
        if i > 0 {
          assert Unlocks(attempts[1..][i - 1], secret);
        }
      }
    }
  }

  /** A fresh session is unlocked only by a run that submitted the secret. */
  lemma UnlockedOnlyByTheSecret(attempts: seq<Attempt>, secret: string)
    ensures FlagAfter(false, attempts, secret) <==> exists i :: 0 <= i < |attempts| && Unlocks(attempts[i], secret)
  {
    FlagAfterMeaning(false, attempts, secret);
  }

  /** The session state of one browser session. */
  class Session {
    /** `st.session_state["password_correct"]`, read with default False. */
    var passwordCorrect: bool

    constructor()
      ensures !passwordCorrect
    {
      passwordCorrect := false;
    }

    /** One run of `check_password` with the form's `submit` and `password`, against `secret`. */
    method CheckPassword(submit: bool, password: string, secret: string) returns (outcome: Outcome)
      modifies this
      ensures (outcome, passwordCorrect) == Check(old(passwordCorrect), Attempt(submit, password), secret)
    {
      if passwordCorrect {
        return Granted;
      }
      if submit {
        var same := CompareDigest(password, secret);
        if same.None? {
          outcome := Raised;
        } else if same.value {
          passwordCorrect := true;
          outcome := Rerun;
        } else {
          outcome := Denied(true);
        }
      } else {
        outcome := Denied(false);
      }
    }
  }
}
