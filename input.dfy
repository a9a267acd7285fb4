/**
 * src/utils/input.ts: `waitForInputValue`, which polls a field until it holds a value, and
 * `typeWithNaturalSpeed`, which types a text one character at a time.
 */
module Input {
  import opened Optional
  import opened Errors
  import opened Config
  import opened Browser

  /** What a poll reads: the field's value, or "" when no element matches. */
  function ReadValue(state: Option<string>): string {
    state.GetOr("")
  }

  /** The index of the poll that ends the wait (it throws or reads the expected value), or the number of polls. */
  function WaitStop(polls: seq<ValueProbe>, expected: string): (k: nat)
    ensures k <= |polls|
    ensures forall i :: 0 <= i < k ==> polls[i].Ok? && ReadValue(polls[i].value) != expected
    ensures k < |polls| ==> polls[k].Threw? || ReadValue(polls[k].value) == expected
  {
    if polls == [] || polls[0].Threw? || ReadValue(polls[0].value) == expected then 0
    else 1 + WaitStop(polls[1..], expected)
  }

  /**
   * The outcome of `waitForInputValue` given the polls its timeout leaves room for: true at the
   * first poll reading the expected value, the exception of a poll that throws first, and false
   * when the polls run out.
   */
  function WaitOutcome(polls: seq<ValueProbe>, expected: string): Result<bool> {
    var k := WaitStop(polls, expected);
    if k == |polls| then Ok(false)
    else match polls[k]
      case Threw(t) => Threw(t)
      case Ok(_) => Ok(true)
  }

  /**
   * The wait succeeds exactly when some poll reads the expected value and every poll before it
   * read another value; an element that is missing reads as "", so it satisfies an expected "".
   */
  lemma WaitSucceedsIff(polls: seq<ValueProbe>, expected: string)
    ensures WaitOutcome(polls, expected) == Ok(true) <==>
              exists k :: 0 <= k < |polls| && polls[k].Ok? && ReadValue(polls[k].value) == expected
                && forall i :: 0 <= i < k ==> polls[i].Ok? && ReadValue(polls[i].value) != expected
    ensures expected == "" && |polls| > 0 && polls[0] == Ok(None) ==> WaitOutcome(polls, expected) == Ok(true)
    ensures WaitOutcome(polls, expected) == Ok(false) <==>
              forall i :: 0 <= i < |polls| ==> polls[i].Ok? && ReadValue(polls[i].value) != expected
  {
    var s := WaitStop(polls, expected);
    if exists k :: 0 <= k < |polls| && polls[k].Ok? && ReadValue(polls[k].value) == expected
         && forall i :: 0 <= i < k ==> polls[i].Ok? && ReadValue(polls[i].value) != expected {
      var k :| 0 <= k < |polls| && polls[k].Ok? && ReadValue(polls[k].value) == expected
         && forall i :: 0 <= i < k ==> polls[i].Ok? && ReadValue(polls[i].value) != expected;
    }
    if s < |polls| { assert polls[s].Threw? || ReadValue(polls[s].value) == expected; }
  }

  /** The values the wait reports as changes: each read that differs from the last value it kept. */
  function Changes(lastValue: string, seen: seq<string>): seq<string>
    decreases |seen|
  {
    if seen == [] then []
    else if seen[0] != lastValue then [seen[0]] + Changes(seen[0], seen[1..])
    else Changes(lastValue, seen[1..])
  }

  /** No two reported changes in a row are equal, and the first differs from the initial "". */
  lemma {:induction false} ChangesDiffer(lastValue: string, seen: seq<string>)
    ensures var c := Changes(lastValue, seen);
            (|c| > 0 ==> c[0] != lastValue) && forall i :: 0 < i < |c| ==> c[i] != c[i - 1]
    ensures forall v :: v in Changes(lastValue, seen) ==> v in seen
    decreases |seen|
  {
    if seen != [] {
      ChangesDiffer(if seen[0] != lastValue then seen[0] else lastValue, seen[1..]);
    }
  }

  /** The values the polls in `polls[..k]` read. */
  function Reads(polls: seq<ValueProbe>, k: nat, expected: string): (r: seq<string>)
    requires k <= WaitStop(polls, expected)
    ensures |r| == k && forall i :: 0 <= i < k ==> r[i] == ReadValue(polls[i].value)
  {
    if k == 0 then [] else Reads(polls, k - 1, expected) + [ReadValue(polls[k - 1].value)]
  }

  /** `waitForInputValue`, polling once per answer; also returns the value changes it reports. */
  method WaitForInputValue(expected: string, polls: seq<ValueProbe>) returns (r: Result<bool>, changes: seq<string>)
    ensures r == WaitOutcome(polls, expected)
    ensures changes == Changes("", Reads(polls, WaitStop(polls, expected), expected))
  {
    var lastValue := "";
    changes := [];
    var polled := 0;
    while polled < |polls|
      invariant polled <= WaitStop(polls, expected)
      invariant Changes("", Reads(polls, WaitStop(polls, expected), expected))
                == changes + Changes(lastValue, Reads(polls, WaitStop(polls, expected), expected)[polled..])
    {
      ghost var stop := WaitStop(polls, expected);
      ghost var all := Reads(polls, stop, expected);
      match polls[polled] {
        case Threw(t) => return Threw(t), changes;
        case Ok(state) =>
          var currentValue := ReadValue(state);
          if currentValue == expected {
            return Ok(true), changes;
          }
          assert polled < stop;
          assert all[polled..] == [currentValue] + all[polled + 1..];
          if currentValue != lastValue {
            changes := changes + [currentValue];
            lastValue := currentValue;
          }
      }
      polled := polled + 1;
    }
    return Ok(false), changes;
  }

  const EmailSeparatorPause := DelayRange(400, 800)
  const KeyPause := DelayRange(100, 200)
  const SettlePause := DelayRange(1000, 2000)

  /** The longer pause follows '@' and '.', and only when the text is not a password. */
  function PauseAfter(c: char, isPassword: bool): (d: DelayRange)
    ensures d == EmailSeparatorPause <==> !isPassword && (c == '@' || c == '.')
    ensures d == EmailSeparatorPause || d == KeyPause
  {
    if !isPassword && (c == '@' || c == '.') then EmailSeparatorPause else KeyPause
  }

  /**
   * `typeWithNaturalSpeed`: one key press per character of the text, in order, each followed by
   * its pause, then a pause for the field to settle.
   */
  method TypeWithNaturalSpeed(text: string, isPassword: bool) returns (keys: seq<Keystroke>, settle: DelayRange)
    ensures Typed(keys) == text
    ensures forall i :: 0 <= i < |keys| ==> keys[i].pause == PauseAfter(text[i], isPassword)
    ensures settle == SettlePause
  {
    keys := [];
    for i := 0 to |text|
      invariant |keys| == i
      invariant forall j :: 0 <= j < i ==> keys[j] == Keystroke(text[j], PauseAfter(text[j], isPassword))
    {
      keys := keys + [Keystroke(text[i], PauseAfter(text[i], isPassword))];
    }
    settle := SettlePause;
  }
}
