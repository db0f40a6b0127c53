/**
 * Two-step password recovery (`ForgotPassword`).  Step 1 looks an account
 * up by pseudonyme and keeps it as the candidate; step 2 checks the secret
 * answer without regard to case and overwrites the password; step 3 is the
 * confirmation.  Escape while step 2 is shown goes back to step 1.
 */
module PasswordReset {
  import opened Records
  import opened Storage
  import opened Text
  import Auth

  /** The form shown: `step-1`, `step-2` or `step-3`. */
  datatype Step = IdentifyStep | AnswerStep | DoneStep

  /** The visible step, the candidate record (`currentUser`) and the durable tier. */
  datatype ResetState = ResetState(step: Step, candidate: Option<User>, local: Store)

  datatype VerifyError = EmptyPseudonyme | NotFound

  datatype ResetError = NotVerified | EmptyField | PasswordTooShort | PasswordMismatch | WrongAnswer

  /** The key the page reads and writes, spelled out as `"urdesire_user_" + pseudonyme`. */
  function AccountKey(p: string): string {
    UserPrefix + p
  }

  /** `verifyPseudonyme`. */
  function AfterVerify(s: ResetState, field: string): (r: (ResetState, Outcome<VerifyError>))
    ensures r.1.Refused? ==> r.0 == s
    ensures r.0.local == s.local
  {
    var p := Trim(field);
    if p == "" then (s, Refused(EmptyPseudonyme))
    else if AccountKey(p) !in s.local then (s, Refused(NotFound))
    else (s.(step := AnswerStep, candidate := UserAt(s.local, p)), Done)
  }

  /**
   * The checks of `resetPassword` once an account is verified, in the
   * page's order: fields filled, new password long enough, confirmation
   * equal, then the answer compared in lower case.
   */
  function ResetCheck(answer: string, newPassword: string, confirm: string, stored: string): (r: Option<ResetError>)
    ensures r == Some(EmptyField) <==> answer == "" || newPassword == "" || confirm == ""
    ensures r == Some(PasswordTooShort) <==>
      answer != "" && newPassword != "" && confirm != "" && JsLength(newPassword) < 6
    ensures r == Some(PasswordMismatch) <==>
      answer != "" && newPassword != "" && confirm != "" && JsLength(newPassword) >= 6 && newPassword != confirm
    ensures r == Some(WrongAnswer) <==>
      answer != "" && JsLength(newPassword) >= 6 && newPassword == confirm && ToLower(answer) != ToLower(stored)
    ensures r == None <==>
      answer != "" && JsLength(newPassword) >= 6 && newPassword == confirm && ToLower(answer) == ToLower(stored)
  {
    if answer == "" || newPassword == "" || confirm == "" then Some(EmptyField)
    else if JsLength(newPassword) < 6 then Some(PasswordTooShort)
    else if newPassword != confirm then Some(PasswordMismatch)
    else if ToLower(answer) != ToLower(stored) then Some(WrongAnswer)
    else None
  }

  /** `resetPassword`: on success only the candidate's password changes, and it is written back. */
  function AfterReset(s: ResetState, answerField: string, newPassword: string, confirm: string): (r: (ResetState, Outcome<ResetError>))
    ensures r.1.Refused? ==> r.0 == s
    ensures s.candidate.None? ==> r == (s, Refused(NotVerified))
    ensures r.1 == Done <==>
      s.candidate.Some? && ResetCheck(Trim(answerField), newPassword, confirm, s.candidate.value.reponse) == None
  {
    match s.candidate
    case None => (s, Refused(NotVerified))
    case Some(u) =>
      match ResetCheck(Trim(answerField), newPassword, confirm, u.reponse)
      case Some(e) => (s, Refused(e))
      case None =>
        var u' := u.(password := newPassword);
        (ResetState(DoneStep, Some(u'), s.local[AccountKey(u.pseudonyme) := UserDoc(u')]), Done)
  }

  /** `handleKeydown`. */
  function AfterKeydown(s: ResetState, key: string): ResetState {
    if key == "Escape" && s.step == AnswerStep then s.(step := IdentifyStep, candidate := None) else s
  }

  // --- Properties ---

  /** The page's key and the account store's key are the same string. */
  lemma AccountKeyIsUserKey(p: string)
    ensures AccountKey(p) == UserKey(p)
  {
    UserKeyShape(p);
  }

  /**
   * A verification succeeds exactly for a non-blank pseudonyme with a stored
   * account; it then holds that account as candidate and shows step 2.
   */
  lemma VerifySucceedsIff(s: ResetState, field: string)
    requires WellTyped(s.local)
    ensures var r := AfterVerify(s, field);
      && (r.1 == Done <==> Trim(field) != "" && UserAt(s.local, Trim(field)).Some?)
      && (r.1 == Done ==> r.0 == s.(step := AnswerStep, candidate := UserAt(s.local, Trim(field))))
      && (r.1 == Done ==> r.0.candidate.value.pseudonyme == Trim(field))
  {
    AccountKeyIsUserKey(Trim(field));
    UserAtMeansPresent(s.local, Trim(field));
  }

  /**
   * The answer is compared case-insensitively: two typed answers that agree
   * once trimmed and lower-cased lead to the same result.
   */
  lemma AnswerIgnoresCase(s: ResetState, a: string, b: string, newPassword: string, confirm: string)
    requires ToLower(Trim(a)) == ToLower(Trim(b))
    ensures AfterReset(s, a, newPassword, confirm) == AfterReset(s, b, newPassword, confirm)
  {
    assert |Trim(a)| == |Trim(b)|;
    if s.candidate.Some? {
      if Trim(a) == "" {
        assert Trim(b) == "";
      } else {
        assert Trim(b) != "";
      }
    }
  }

  /** Stored answer "Blue": "blue" and "BLUE" are accepted; "Green" is refused as the wrong answer. */
  lemma AnswerExamples()
    ensures ResetCheck("blue", "newpass1", "newpass1", "Blue") == None
    ensures ResetCheck("BLUE", "newpass1", "newpass1", "Blue") == None
    ensures ResetCheck("Green", "newpass1", "newpass1", "Blue") == Some(WrongAnswer)
  {
    assert ToLower("Green") != ToLower("Blue") by {
      assert ToLower("Green")[0] == 'g' && ToLower("Blue")[0] == 'b';
    }
  }

  /**
   * A successful reset rewrites only the candidate's account, under the key
   * `saveUser` uses, with only the password changed, and shows step 3.
   */
  lemma ResetChangesOnlyPassword(s: ResetState, answerField: string, newPassword: string, confirm: string, q: string)
    requires AfterReset(s, answerField, newPassword, confirm).1 == Done
    ensures var s' := AfterReset(s, answerField, newPassword, confirm).0;
      var u := s.candidate.value;
      && s'.step == DoneStep
      && UserAt(s'.local, u.pseudonyme) == Some(u.(password := newPassword))
      && (q != u.pseudonyme ==> UserAt(s'.local, q) == UserAt(s.local, q))
      && s'.local.Keys == s.local.Keys + {UserKey(u.pseudonyme)}
  {
    var u := s.candidate.value;
    AccountKeyIsUserKey(u.pseudonyme);
    UserKeyInjective(q, u.pseudonyme);
  }

  /**
   * After verifying a pseudonyme and resetting its password, logging in with
   * the new password succeeds and logging in with any other password fails.
   */
  lemma ResetThenLogin(s: ResetState, field: string, answerField: string, newPassword: string,
                       session: Store, current: Option<User>, other: string, remember: bool, now: int)
    requires WellTyped(s.local)
    requires JsLength(Trim(field)) >= 3
    requires AfterVerify(s, field).1 == Done
    requires AfterReset(AfterVerify(s, field).0, answerField, newPassword, newPassword).1 == Done
    requires other != "" && other != newPassword
    ensures var s' := AfterReset(AfterVerify(s, field).0, answerField, newPassword, newPassword).0;
      var a := Auth.AuthState(s'.local, session, current);
      && Auth.AfterLogin(a, field, newPassword, remember, now).1 == Done
      && Auth.AfterLogin(a, field, other, remember, now) == (a, Refused(Auth.WrongPassword))
  {
    var p := Trim(field);
    VerifySucceedsIff(s, field);
    var v := AfterVerify(s, field).0;
    ResetChangesOnlyPassword(v, answerField, newPassword, newPassword, p);
    var s' := AfterReset(v, answerField, newPassword, newPassword).0;
    UserKeyShape(p);
    assert UserKey(p) in s'.local && s'.local[UserKey(p)].UserDoc?;
  }

  /** Escape while step 2 is shown returns to step 1 and forgets the candidate; otherwise it does nothing. */
  lemma EscapeGoesBack(s: ResetState, key: string)
    ensures s.step == AnswerStep && key == "Escape" ==>
      AfterKeydown(s, key) == ResetState(IdentifyStep, None, s.local)
    ensures !(s.step == AnswerStep && key == "Escape") ==> AfterKeydown(s, key) == s
  {
  }

  /** The controller of the recovery page. */
  class ForgotPassword {
    var currentUser: Option<User>
    var step: Step
    const local: WebStorage

    ghost predicate Valid()
      reads this, local
    {
      local.Valid()
    }

    function State(): ResetState
      reads this, local
    {
      ResetState(step, currentUser, local.items)
    }

    constructor (local: WebStorage)
      requires local.Valid()
      ensures Valid() && this.local == local
      ensures State() == ResetState(IdentifyStep, None, local.items)
    {
      this.local := local;
      currentUser := None;
      step := IdentifyStep;
    }

    /** `verifyPseudonyme`. */
    method VerifyPseudonyme(field: string) returns (outcome: Outcome<VerifyError>)
      requires Valid()
      modifies this
      ensures Valid() && (State(), outcome) == AfterVerify(old(State()), field)
    {
      var p := Trim(field);
      if p == "" {
        return Refused(EmptyPseudonyme);
      }
      if AccountKey(p) !in local.items {
        return Refused(NotFound);
      }
      currentUser := UserAt(local.items, p);
      step := AnswerStep;
      outcome := Done;
    }

    /** `resetPassword`. */
    method ResetPassword(answerField: string, newPassword: string, confirmPassword: string)
      returns (outcome: Outcome<ResetError>)
      requires Valid()
      modifies this, local
      ensures Valid() && (State(), outcome) == AfterReset(old(State()), answerField, newPassword, confirmPassword)
    {
      if currentUser == None {
        return Refused(NotVerified);
      }
      var reponse := Trim(answerField);
      if reponse == "" || newPassword == "" || confirmPassword == "" {
        return Refused(EmptyField);
      }
      if JsLength(newPassword) < 6 {
        return Refused(PasswordTooShort);
      }
      if newPassword != confirmPassword {
        return Refused(PasswordMismatch);
      }
      if ToLower(reponse) != ToLower(currentUser.value.reponse) {
        return Refused(WrongAnswer);
      }
      currentUser := Some(currentUser.value.(password := newPassword));
      AccountKeyIsUserKey(currentUser.value.pseudonyme);
      UserFits(currentUser.value);
      local.SetItem(AccountKey(currentUser.value.pseudonyme), UserDoc(currentUser.value));
      step := DoneStep;
      outcome := Done;
    }

    /** `handleKeydown`. */
    method HandleKeydown(key: string)
      requires Valid()
      modifies this
      ensures Valid() && State() == AfterKeydown(old(State()), key)
    {
      if key == "Escape" && step == AnswerStep {
        step := IdentifyStep;
        currentUser := None;
      }
    }
  }
}
