/**
 * src/utils/inputVerification.ts: `handleInputField`, a retry loop with a caller-chosen attempt
 * cap that types a value, waits for it to appear and falls back to assigning it directly; and the
 * email and password wrappers that fix the password flag.
 */
module InputVerification {
  import opened Text
  import opened Optional
  import opened Errors
  import opened Config
  import opened Browser
  import opened Retry
  import opened Input

  datatype FieldOptions = FieldOptions(
    preTypeDelay: Option<DelayRange>,
    postTypeDelay: Option<DelayRange>,
    maxAttempts: Option<int>,
    isPassword: Option<bool>)

  datatype FieldSettings = FieldSettings(preTypeDelay: DelayRange, postTypeDelay: DelayRange, maxAttempts: int, isPassword: bool)

  function FieldSettingsOf(o: FieldOptions): FieldSettings {
    FieldSettings(o.preTypeDelay.GetOr(DelayRange(800, 1500)), o.postTypeDelay.GetOr(DelayRange(1000, 2000)),
                  o.maxAttempts.GetOr(3), o.isPassword.GetOr(false))
  }

  /** Without options: pre-type [800, 1500], post-type [1000, 2000], three attempts, not a password. */
  lemma FieldDefaults()
    ensures FieldSettingsOf(FieldOptions(None, None, None, None))
            == FieldSettings(DelayRange(800, 1500), DelayRange(1000, 2000), 3, false)
  {
  }

  /**
   * What the page does during one attempt: the wait for the field (an element, null, or a
   * timeout), the preparation (clearing the field, the mouse move, the click and the typing), the
   * polls of `waitForInputValue`, the fallback assignment and the read-back after it.
   */
  datatype FieldAttempt = FieldAttempt(
    lookup: Result<bool>,
    preparation: Result<()>,
    polls: seq<ValueProbe>,
    fallback: Result<()>,
    readback: ValueProbe)

  /**
   * One attempt: success when the polled value appears, or when the value read back after the
   * fallback equals it; a failure to verify otherwise; any exception is caught by the loop.
   */
  function FieldStep(value: string, a: FieldAttempt): (r: Attempt)
    ensures !r.Escaped?
    ensures r.Done? <==>
              (a.lookup == Ok(true) && a.preparation.Ok?
               && (WaitOutcome(a.polls, value) == Ok(true)
                   || (WaitOutcome(a.polls, value) == Ok(false) && a.fallback.Ok?
                       && a.readback.Ok? && ReadValue(a.readback.value) == value)))
    ensures a.lookup == Ok(false) ==> r == Failed("Input element not found")
  {
    match a.lookup
    case Threw(t) => Failed(Cause(t))
    case Ok(found) =>
      if !found then Failed(Cause(Raised(NewError(PlainError, "Input element not found"))))
      else if a.preparation.Threw? then Failed(Cause(a.preparation.thrown))
      else match WaitOutcome(a.polls, value)
        case Threw(t) => Failed(Cause(t))
        case Ok(isValueSet) =>
          if isValueSet then Done
          else if a.fallback.Threw? then Failed(Cause(a.fallback.thrown))
          else match a.readback
            case Threw(t) => Failed(Cause(t))
            case Ok(state) => if ReadValue(state) == value then Done else Unverified
  }

  function FieldOutcomes(value: string, answers: nat -> FieldAttempt): nat -> Attempt {
    (k: nat) => FieldStep(value, answers(k))
  }

  /** How `handleInputField` ends; the messages name the attempt cap as given. */
  function FieldResult(e: Ending, maxAttempts: int): Result<bool> {
    match e
    case Succeeded(_) => Ok(true)
    case FailedOnLast(_, cause) =>
      Fail(PlainError, "Failed to handle input after " + IntToString(maxAttempts) + " attempts: " + cause)
    case Aborted(_, t) => Threw(t)
    case Exhausted(_) => Fail(PlainError, "Failed to verify input after " + IntToString(maxAttempts) + " attempts")
  }

  /** One attempt, polling as `waitForInputValue` does. */
  method RunFieldAttempt(value: string, a: FieldAttempt) returns (outcome: Attempt)
    ensures outcome == FieldStep(value, a)
  {
    if a.lookup != Ok(true) || a.preparation.Threw? {
      return FieldStep(value, a);
    }
    var isValueSet, _ := WaitForInputValue(value, a.polls);
    match isValueSet {
      case Threw(t) => outcome := Failed(Cause(t));
      case Ok(set_) =>
        if set_ {
          outcome := Done;
        } else if a.fallback.Threw? {
          outcome := Failed(Cause(a.fallback.thrown));
        } else {
          match a.readback {
            case Threw(t) => outcome := Failed(Cause(t));
            case Ok(state) => outcome := if ReadValue(state) == value then Done else Unverified;
          }
        }
    }
  }

  /** `handleInputField`: the result, and the number of attempts made. */
  method HandleInputField(value: string, options: FieldOptions, answers: nat -> FieldAttempt)
    returns (r: Result<bool>, attempts: nat)
    ensures var max := FieldSettingsOf(options).maxAttempts;
            var e := Run(FieldOutcomes(value, answers), max);
            r == FieldResult(e, max) && attempts == e.attempts
  {
    var maxAttempts := FieldSettingsOf(options).maxAttempts;
    ghost var outcomes := FieldOutcomes(value, answers);
    attempts := 0;
    while attempts < maxAttempts
      invariant Run(outcomes, maxAttempts) == RunFrom(outcomes, maxAttempts, attempts)
      decreases maxAttempts - attempts
    {
      var outcome := RunFieldAttempt(value, answers(attempts + 1));
      match outcome {
        case Done => return Ok(true), attempts + 1;
        case Unverified =>
          attempts := attempts + 1;
        case Failed(cause) =>
          attempts := attempts + 1;
          if attempts >= maxAttempts {
            return Fail(PlainError, "Failed to handle input after " + IntToString(maxAttempts) + " attempts: " + cause), attempts;
          }
        case Escaped(_) => assert false;
      }
    }
    return Fail(PlainError, "Failed to verify input after " + IntToString(maxAttempts) + " attempts"), attempts;
  }

  /**
   * `handleInputField` makes at most `maxAttempts` attempts and none when the cap is not positive,
   * in which case it fails with "Failed to verify input after N attempts". Nothing escapes its
   * loop: it returns true after attempt n exactly when that attempt succeeds and the earlier ones
   * failed, and otherwise fails after exactly `maxAttempts` attempts, carrying the cause of the
   * last one when that one threw.
   */
  lemma FieldOutcome(value: string, answers: nat -> FieldAttempt, max: int, n: nat)
    ensures var o := FieldOutcomes(value, answers);
            var e := Run(o, max);
            && FieldResult(e, max) != Ok(false)
            && !e.Aborted?
            && (max <= 0 ==>
                  (e == Exhausted(0)
                   && FieldResult(e, max) == Fail(PlainError, "Failed to verify input after " + IntToString(max) + " attempts")))
            && ((FieldResult(e, max) == Ok(true) && e.attempts == n) <==>
                  (1 <= n <= max && ReachesFrom(o, 0, n) && FieldStep(value, answers(n)).Done?))
            && (FieldResult(e, max) != Ok(true) ==> e.attempts == Top(max, 0))
            && (e.FailedOnLast? ==>
                  (e.attempts == max && o(max) == Failed(e.cause)
                   && FieldResult(e, max) ==
                      Fail(PlainError, "Failed to handle input after " + IntToString(max) + " attempts: " + e.cause)))
  {
    var o := FieldOutcomes(value, answers);
    var e := Run(o, max);
    RunCharacterized(o, max, e.attempts, if e.FailedOnLast? then e.cause else "",
                     if e.Aborted? then e.thrown else NonError(""));
    RunCharacterized(o, max, n, "", NonError(""));
    assert o(e.attempts) == FieldStep(value, answers(e.attempts));
  }

  /** `handleEmailInput` and `handlePasswordInput`: the caller's options with the password flag forced. */
  function EmailFieldOptions(o: FieldOptions): FieldOptions {
    o.(isPassword := Some(false))
  }

  function PasswordFieldOptions(o: FieldOptions): FieldOptions {
    o.(isPassword := Some(true))
  }

  /** The wrappers override the caller's password flag and keep every other option. */
  lemma WrappersForcePasswordFlag(o: FieldOptions)
    ensures FieldSettingsOf(EmailFieldOptions(o)) == FieldSettingsOf(o).(isPassword := false)
    ensures FieldSettingsOf(PasswordFieldOptions(o)) == FieldSettingsOf(o).(isPassword := true)
  {
  }

  method HandleEmailInput(value: string, options: FieldOptions, answers: nat -> FieldAttempt)
    returns (r: Result<bool>, attempts: nat)
    ensures var max := FieldSettingsOf(options).maxAttempts;
            var e := Run(FieldOutcomes(value, answers), max);
            r == FieldResult(e, max) && attempts == e.attempts
  {
    r, attempts := HandleInputField(value, EmailFieldOptions(options), answers);
  }

  method HandlePasswordInput(value: string, options: FieldOptions, answers: nat -> FieldAttempt)
    returns (r: Result<bool>, attempts: nat)
    ensures var max := FieldSettingsOf(options).maxAttempts;
            var e := Run(FieldOutcomes(value, answers), max);
            r == FieldResult(e, max) && attempts == e.attempts
  {
    r, attempts := HandleInputField(value, PasswordFieldOptions(options), answers);
  }
}
