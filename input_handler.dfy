/**
 * src/handlers/input.handler.ts: `handleInput`, up to three attempts to type a value into a field
 * and verify it, with a fallback that assigns the value directly; and `fillForm`, which fills a
 * list of fields in order.
 */
module InputHandler {
  import opened Optional
  import opened Errors
  import opened Config
  import opened Retry
  import opened Validation

  const MaxInputAttempts := 3

  datatype InputOptions = InputOptions(
    isPassword: Option<bool>,
    preTypeDelay: Option<DelayRange>,
    postTypeDelay: Option<DelayRange>)

  datatype InputSettings = InputSettings(isPassword: bool, preTypeDelay: DelayRange, postTypeDelay: DelayRange)

  function InputSettingsOf(o: InputOptions): InputSettings {
    InputSettings(o.isPassword.GetOr(false), o.preTypeDelay.GetOr(Short), o.postTypeDelay.GetOr(Short))
  }

  /** Without options, the text is not a password and both delays are SHORT. */
  lemma InputDefaults()
    ensures InputSettingsOf(InputOptions(None, None, None)) == InputSettings(false, Short, Short)
  {
  }

  /**
   * What the page does during one attempt: the wait for the field, the state read, the
   * interactability check, the preparation (clearing the field, the mouse move, the click and the
   * typing), the first verification, the assignment that commits a verified value, the fallback
   * assignment, the verification after it, and the state read of the error handler.
   */
  datatype InputAttempt = InputAttempt(
    lookup: Result<bool>,
    state: Result<()>,
    interactable: Result<bool>,
    preparation: Result<()>,
    verify: VerifyAnswers,
    commit: Result<()>,
    fallback: Result<()>,
    reverify: VerifyAnswers,
    diagnostics: Result<()>)

  /** The field was found, readable, interactable and typed into. */
  predicate Prepared(a: InputAttempt) {
    a.lookup == Ok(true) && a.state.Ok? && a.interactable == Ok(true) && a.preparation.Ok?
  }

  /**
   * The outer `try` block of one attempt: true when the value verifies, false when neither the
   * typed value nor the fallback value verifies, or what it threw. A failed verification and a
   * failed commit are caught by the inner handler and lead to the fallback.
   */
  function InputTry(value: string, a: InputAttempt): (r: Result<bool>)
    ensures r == Ok(true) <==>
              (Prepared(a)
               && ((VerifyOutcome(a.verify, value).Ok? && a.commit.Ok?)
                   || (a.fallback.Ok? && VerifyOutcome(a.reverify, value).Ok?)))
    ensures r == Ok(false) <==>
              (Prepared(a)
               && !(VerifyOutcome(a.verify, value).Ok? && a.commit.Ok?)
               && a.fallback.Ok? && !VerifyOutcome(a.reverify, value).Ok?)
    ensures a.lookup == Ok(false) ==> r == Fail(InputError, "Input element not found")
    ensures a.lookup == Ok(true) && a.state.Ok? && a.interactable == Ok(false) ==>
              r == Fail(InputError, "Input element is not interactable")
  {
    match a.lookup
    case Threw(t) => Threw(t)
    case Ok(found) =>
      if !found then Fail(InputError, "Input element not found")
      else if a.state.Threw? then Threw(a.state.thrown)
      else match a.interactable
        case Threw(t) => Threw(t)
        case Ok(interactable) =>
          if !interactable then Fail(InputError, "Input element is not interactable")
          else if a.preparation.Threw? then Threw(a.preparation.thrown)
          else if VerifyOutcome(a.verify, value).Ok? && a.commit.Ok? then Ok(true)
          else if a.fallback.Threw? then Threw(a.fallback.thrown)
          else Ok(VerifyOutcome(a.reverify, value).Ok?)
  }

  /**
   * One attempt as the loop sees it. When the `try` block throws, the error handler reads the page
   * state once more; if that read throws, its exception leaves `handleInput` at once.
   */
  function InputStep(value: string, a: InputAttempt): Attempt {
    match InputTry(value, a)
    case Ok(verified) => if verified then Done else Unverified
    case Threw(t) => if a.diagnostics.Threw? then Escaped(a.diagnostics.thrown) else Failed(Cause(t))
  }

  function InputOutcomes(value: string, answers: nat -> InputAttempt): nat -> Attempt {
    (k: nat) => InputStep(value, answers(k))
  }

  /** How `handleInput` ends: true, an InputError naming the attempt cap, or an escaped exception. */
  function InputResult(e: Ending): Result<bool> {
    match e
    case Succeeded(_) => Ok(true)
    case FailedOnLast(_, cause) => Fail(InputError, "Input handling failed after 3 attempts: " + cause)
    case Aborted(_, t) => Threw(t)
    case Exhausted(_) => Fail(InputError, "Input handling failed after 3 attempts")
  }

  /** One attempt, running both verifications as `verifyInputValue` does. */
  method RunInputAttempt(value: string, a: InputAttempt) returns (outcome: Attempt)
    ensures outcome == InputStep(value, a)
  {
    var tried: Result<bool>;
    if !Prepared(a) {
      tried := InputTry(value, a);
    } else {
      var verified := VerifyInputValue(value, a.verify);
      if verified.Ok? && a.commit.Ok? {
        tried := Ok(true);
      } else if a.fallback.Threw? {
        tried := Threw(a.fallback.thrown);
      } else {
        var reverified := VerifyInputValue(value, a.reverify);
        tried := Ok(reverified.Ok?);
      }
    }
    match tried {
      case Ok(verified) =>
        outcome := if verified then Done else Unverified;
      case Threw(t) =>
        if a.diagnostics.Threw? {
          outcome := Escaped(a.diagnostics.thrown);
        } else {
          outcome := Failed(Cause(t));
        }
    }
  }

  /** `handleInput`: the result, and the number of attempts made. */
  method HandleInput(value: string, options: InputOptions, answers: nat -> InputAttempt)
    returns (r: Result<bool>, attempts: nat)
    ensures var e := Run(InputOutcomes(value, answers), MaxInputAttempts);
            r == InputResult(e) && attempts == e.attempts
  {
    ghost var outcomes := InputOutcomes(value, answers);
    attempts := 0;
    while attempts < MaxInputAttempts
      invariant attempts <= MaxInputAttempts
      invariant Run(outcomes, MaxInputAttempts) == RunFrom(outcomes, MaxInputAttempts, attempts)
    {
      attempts := attempts + 1;
      var outcome := RunInputAttempt(value, answers(attempts));
      match outcome {
        case Done => return Ok(true), attempts;
        case Unverified =>
        case Failed(cause) =>
          if attempts >= MaxInputAttempts {
            return Fail(InputError, "Input handling failed after 3 attempts: " + cause), attempts;
          }
        case Escaped(t) => return Threw(t), attempts;
      }
    }
    return Fail(InputError, "Input handling failed after 3 attempts"), attempts;
  }

  /**
   * `handleInput` never returns false and makes at most three attempts. It returns true after
   * attempt n exactly when that attempt's typed value or fallback value verifies and every earlier
   * attempt failed without an exception escaping. Three attempts that all fail end in an
   * InputError: without a cause when the third only failed to verify, with the third's cause when
   * it threw. The only exception that escapes unwrapped is one thrown by the error handler's own
   * page read.
   */
  lemma InputOutcome(value: string, answers: nat -> InputAttempt, n: nat)
    ensures var o := InputOutcomes(value, answers);
            var e := Run(o, MaxInputAttempts);
            && InputResult(e) != Ok(false)
            && e.attempts <= 3
            && ((InputResult(e) == Ok(true) && e.attempts == n) <==>
                  (1 <= n <= 3 && ReachesFrom(o, 0, n) && InputTry(value, answers(n)) == Ok(true)))
            && ((forall i :: 1 <= i <= 3 ==> o(i).Unverified? || o(i).Failed?) && o(3).Unverified? ==>
                  InputResult(e) == Fail(InputError, "Input handling failed after 3 attempts"))
            && ((forall i :: 1 <= i <= 3 ==> o(i).Unverified? || o(i).Failed?) && o(3).Failed? ==>
                  InputResult(e) == Fail(InputError, "Input handling failed after 3 attempts: " + o(3).cause))
            && (e.Aborted? ==> answers(e.attempts).diagnostics == Threw(e.thrown))
  {
    var o := InputOutcomes(value, answers);
    var e := Run(o, MaxInputAttempts);
    RunCharacterized(o, MaxInputAttempts, e.attempts, if e.FailedOnLast? then e.cause else "",
                     if e.Aborted? then e.thrown else NonError(""));
    RunCharacterized(o, MaxInputAttempts, n, "", NonError(""));
    if (forall i :: 1 <= i <= 3 ==> o(i).Unverified? || o(i).Failed?) {
      assert ReachesFrom(o, 0, 3);
      if o(3).Unverified? {
        RunCharacterized(o, MaxInputAttempts, 3, "", NonError(""));
      } else {
        RunCharacterized(o, MaxInputAttempts, 3, o(3).cause, NonError(""));
      }
    }
  }

  /** One entry of the form: the field's selector, its value, the password flag, and the page's answers for it. */
  datatype FormField = FormField(selector: string, value: string, isPassword: Option<bool>, answers: nat -> InputAttempt)

  /** What `handleInput` does with a field. */
  function FieldResult(f: FormField): Result<bool> {
    InputResult(Run(InputOutcomes(f.value, f.answers), MaxInputAttempts))
  }

  /** The number of fields `fillForm` handles: up to and including the first that throws. */
  function FillStop(fields: seq<FormField>): (k: nat)
    ensures k <= |fields|
    ensures forall i :: 0 <= i < k ==> FieldResult(fields[i]).Ok?
    ensures k < |fields| ==> FieldResult(fields[k]).Threw?
  {
    if fields == [] || FieldResult(fields[0]).Threw? then 0 else 1 + FillStop(fields[1..])
  }

  /** The result of `fillForm`: true when every field succeeds, else an InputError naming the first field that failed. */
  function FillOutcome(fields: seq<FormField>): (r: Result<bool>)
    ensures r == Ok(true) <==> forall i :: 0 <= i < |fields| ==> FieldResult(fields[i]).Ok?
    ensures r != Ok(true) ==> exists i :: (0 <= i < |fields| && FieldResult(fields[i]).Threw?
              && (forall j :: 0 <= j < i ==> FieldResult(fields[j]).Ok?)
              && r == Fail(InputError, "Form fill failed at selector " + fields[i].selector + ": "
                                       + Cause(FieldResult(fields[i]).thrown)))
  {
    var k := FillStop(fields);
    if k == |fields| then Ok(true)
    else Fail(InputError, "Form fill failed at selector " + fields[k].selector + ": " + Cause(FieldResult(fields[k]).thrown))
  }

  /** `fillForm`: handles the fields in order and stops at the first that throws; also returns how many it handled. */
  method FillForm(fields: seq<FormField>) returns (r: Result<bool>, handled: nat)
    ensures r == FillOutcome(fields)
    ensures handled == if r == Ok(true) then |fields| else FillStop(fields) + 1
  {
    handled := 0;
    while handled < |fields|
      invariant handled <= |fields|
      invariant forall i :: 0 <= i < handled ==> FieldResult(fields[i]).Ok?
    {
      var f := fields[handled];
      var result, _ := HandleInput(f.value, InputOptions(f.isPassword, None, None), f.answers);
      handled := handled + 1;
      if result.Threw? {
        assert FillStop(fields) == handled - 1 by {
          var k := FillStop(fields);
          assert k >= handled - 1;
        }
        return Fail(InputError, "Form fill failed at selector " + f.selector + ": " + Cause(result.thrown)), handled;
      }
    }
    return Ok(true), handled;
  }
}
