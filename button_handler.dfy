/** `handleButton` of src/handlers/button.handler.ts: up to three attempts to click a button. */
module ButtonHandler {
  import opened Optional
  import opened Errors
  import opened Config
  import opened Retry

  const MaxButtonAttempts := 3

  /** The caller's options; a missing option takes its default. */
  datatype ButtonOptions = ButtonOptions(
    preClickDelay: Option<DelayRange>,
    postClickDelay: Option<DelayRange>,
    waitForNavigation: Option<bool>,
    requiresFormValidation: Option<bool>)

  datatype ButtonSettings = ButtonSettings(
    preClickDelay: DelayRange,
    postClickDelay: DelayRange,
    waitForNavigation: bool,
    requiresFormValidation: bool)

  function ButtonSettingsOf(o: ButtonOptions): ButtonSettings {
    ButtonSettings(o.preClickDelay.GetOr(Short), o.postClickDelay.GetOr(Short),
                   o.waitForNavigation.GetOr(false), o.requiresFormValidation.GetOr(false))
  }

  /** Without options, both delays are SHORT and neither flag is set; a given option is kept. */
  lemma ButtonDefaults(o: ButtonOptions)
    ensures ButtonSettingsOf(ButtonOptions(None, None, None, None)) == ButtonSettings(Short, Short, false, false)
    ensures o.waitForNavigation.Some? ==> ButtonSettingsOf(o).waitForNavigation == o.waitForNavigation.value
    ensures o.preClickDelay.Some? ==> ButtonSettingsOf(o).preClickDelay == o.preClickDelay.value
    ensures o.postClickDelay.Some? ==> ButtonSettingsOf(o).postClickDelay == o.postClickDelay.value
  {
  }

  /**
   * What the page does during one attempt: the wait for the button (an element, null, or a
   * timeout), the state read, the mouse move, the click, the navigation wait, and the state read
   * after the click.
   */
  datatype ButtonAttempt = ButtonAttempt(
    lookup: Result<bool>,
    probe: Result<()>,
    pointer: Result<()>,
    click: Result<()>,
    navigation: Result<()>,
    after: Result<()>)

  /** The click, on its own or paired with a navigation wait; when both fail, the click's error is reported. */
  function ClickOutcome(waitForNavigation: bool, click: Result<()>, navigation: Result<()>): (r: Result<()>)
    ensures !waitForNavigation ==> r == click
    ensures r.Ok? <==> click.Ok? && (waitForNavigation ==> navigation.Ok?)
  {
    if waitForNavigation && click.Ok? && navigation.Threw? then navigation else click
  }

  /** The first step of a sequence of steps that throws, or `Ok` when none does. */
  function FirstFailure(steps: seq<Result<()>>): (r: Result<()>)
    ensures r.Ok? <==> forall i :: 0 <= i < |steps| ==> steps[i].Ok?
    ensures r.Threw? ==> exists i :: (0 <= i < |steps| && steps[i] == r
                                      && forall j :: 0 <= j < i ==> steps[j].Ok?)
  {
    if steps == [] then Ok(())
    else if steps[0].Threw? then steps[0]
    else
      var r := FirstFailure(steps[1..]);
      assert forall i :: 1 <= i < |steps| ==> steps[i] == steps[1..][i - 1];
      r
  }

  /** One pass through the `try` block: success, or failure with the message of what it threw. */
  function ButtonStep(settings: ButtonSettings, a: ButtonAttempt): (r: Attempt)
    ensures r.Done? || r.Failed?
    ensures r.Done? <==> (a.lookup == Ok(true) && a.probe.Ok? && a.pointer.Ok? && a.after.Ok?
              && ClickOutcome(settings.waitForNavigation, a.click, a.navigation).Ok?)
    ensures a.lookup == Ok(false) ==> r == Failed(NewError(InputError, "Button element not found").message)
  {
    match a.lookup
    case Threw(t) => Failed(Cause(t))
    case Ok(found) =>
      if !found then Failed(Cause(Raised(NewError(InputError, "Button element not found"))))
      else
        var steps := [a.probe, a.pointer, ClickOutcome(settings.waitForNavigation, a.click, a.navigation), a.after];
        assert steps[0] == a.probe && steps[1] == a.pointer && steps[3] == a.after
          && steps[2] == ClickOutcome(settings.waitForNavigation, a.click, a.navigation);
        match FirstFailure(steps)
        case Ok(_) => Done
        case Threw(t) => Failed(Cause(t))
  }

  /**
   * `waitForNavigation` only decides whether the click waits for a navigation: without it the
   * navigation answer is never consulted, and when the navigation succeeds it changes nothing.
   */
  lemma NavigationOnlyPairsTheClick(settings: ButtonSettings, a: ButtonAttempt, nav: Result<()>)
    ensures !settings.waitForNavigation ==> ButtonStep(settings, a) == ButtonStep(settings, a.(navigation := nav))
    ensures a.navigation.Ok? ==>
              ButtonStep(settings.(waitForNavigation := true), a) == ButtonStep(settings.(waitForNavigation := false), a)
  {
  }

  function ButtonOutcomes(settings: ButtonSettings, answers: nat -> ButtonAttempt): nat -> Attempt {
    (k: nat) => ButtonStep(settings, answers(k))
  }

  /** How `handleButton` ends: true, or an InputError naming the attempt cap. */
  function ButtonResult(e: Ending): Result<bool> {
    match e
    case Succeeded(_) => Ok(true)
    case FailedOnLast(_, cause) => Fail(InputError, "Button interaction failed after 3 attempts: " + cause)
    case Aborted(_, t) => Threw(t)
    case Exhausted(_) => Fail(InputError, "Button interaction failed after 3 attempts")
  }

  /** `handleButton`: the result, and the number of attempts made. */
  method HandleButton(options: ButtonOptions, answers: nat -> ButtonAttempt) returns (r: Result<bool>, attempts: nat)
    ensures var e := Run(ButtonOutcomes(ButtonSettingsOf(options), answers), MaxButtonAttempts);
            r == ButtonResult(e) && attempts == e.attempts
  {
    var settings := ButtonSettingsOf(options);
    ghost var outcomes := ButtonOutcomes(settings, answers);
    attempts := 0;
    while attempts < MaxButtonAttempts
      invariant attempts <= MaxButtonAttempts
      invariant Run(outcomes, MaxButtonAttempts) == RunFrom(outcomes, MaxButtonAttempts, attempts)
    {
      attempts := attempts + 1;
      var outcome := ButtonStep(settings, answers(attempts));
      if outcome.Done? {
        return Ok(true), attempts;
      }
      if attempts >= MaxButtonAttempts {
        return Fail(InputError, "Button interaction failed after 3 attempts: " + outcome.cause), attempts;
      }
    }
    return Fail(InputError, "Button interaction failed after 3 attempts"), attempts;
  }

  /**
   * `handleButton` returns true exactly when some attempt n <= 3 succeeds after n - 1 failures, and
   * then makes no further attempt; otherwise all three attempts fail and it throws an InputError
   * carrying the third attempt's cause. The trailing throw after the loop is never reached.
   */
  lemma ButtonOutcome(options: ButtonOptions, answers: nat -> ButtonAttempt)
    ensures var settings := ButtonSettingsOf(options);
            var outcomes := ButtonOutcomes(settings, answers);
            var e := Run(outcomes, MaxButtonAttempts);
            && (e.Succeeded? || e.FailedOnLast?)
            && (ButtonResult(e) == Ok(true) <==> exists n :: 1 <= n <= 3 && ButtonStep(settings, answers(n)).Done?)
            && (e.Succeeded? ==> outcomes(e.attempts).Done? && forall i :: 1 <= i < e.attempts ==> outcomes(i).Failed?)
            && (e.FailedOnLast? ==> (e.attempts == 3 && (forall i :: 1 <= i <= 3 ==> outcomes(i).Failed?)
                  && ButtonResult(e) == Fail(InputError, "Button interaction failed after 3 attempts: " + outcomes(3).cause)))
  {
    var settings := ButtonSettingsOf(options);
    var outcomes := ButtonOutcomes(settings, answers);
    var e := Run(outcomes, MaxButtonAttempts);
    match e {
      case Succeeded(n) => RunCharacterized(outcomes, MaxButtonAttempts, n, "", NonError(""));
      case FailedOnLast(n, c) => RunCharacterized(outcomes, MaxButtonAttempts, n, c, NonError(""));
      case Aborted(n, t) => RunCharacterized(outcomes, MaxButtonAttempts, n, "", t);
      case Exhausted(n) => RunCharacterized(outcomes, MaxButtonAttempts, n, "", NonError(""));
    }
    if exists n :: 1 <= n <= 3 && ButtonStep(settings, answers(n)).Done? {
      var n :| 1 <= n <= 3 && ButtonStep(settings, answers(n)).Done?;
      assert outcomes(n).Done?;
    }
  }
}
