/**
 * src/services/validation.service.ts: `validateInput`, the rule for each kind of credential, and
 * `verifyInputValue`, which polls a field until it holds the expected value.
 */
module Validation {
  import opened Text
  import opened Optional
  import opened Errors
  import opened Browser

  datatype InputKind = Email | Password | SecurityAnswer

  /** The kind's name as callers pass it, used in the "required" message. */
  function KindName(kind: InputKind): string {
    match kind
    case Email => "email"
    case Password => "password"
    case SecurityAnswer => "security-answer"
  }

  /** The characters JavaScript's `\s` and `String.prototype.trim` treat as white space. */
  predicate IsJsWhitespace(c: char) {
    c == ' ' || c == '\t' || c == '\n' || c == '\U{000B}' || c == '\U{000C}' || c == '\r'
    || c == '\U{00A0}' || c == '\U{1680}' || ('\U{2000}' <= c <= '\U{200A}') || c == '\U{2028}'
    || c == '\U{2029}' || c == '\U{202F}' || c == '\U{205F}' || c == '\U{3000}' || c == '\U{FEFF}'
  }

  /** A character of the class `[^\s@]`. */
  predicate IsEmailChar(c: char) {
    !IsJsWhitespace(c) && c != '@'
  }

  /**
   * What the pattern `^[^\s@]+@[^\s@]+\.[^\s@]+$` accepts: one '@' at `k` after a non-empty local
   * part, a '.' at `j` with at least one character between it and the '@' and at least one after
   * it, and no white space and no other '@' anywhere.
   */
  ghost predicate MatchesEmailPattern(s: string) {
    exists k, j :: 0 < k && k + 1 < j && j + 1 < |s| && s[k] == '@' && s[j] == '.'
      && forall i :: 0 <= i < |s| && i != k ==> IsEmailChar(s[i])
  }

  function IndexOf(s: string, c: char): (r: Option<nat>)
    ensures r.Some? ==> r.value < |s| && s[r.value] == c && forall i :: 0 <= i < r.value ==> s[i] != c
    ensures r.None? ==> forall i :: 0 <= i < |s| ==> s[i] != c
  {
    if s == [] then None
    else if s[0] == c then Some(0)
    else match IndexOf(s[1..], c)
      case None => None
      case Some(k) => Some(k + 1)
  }

  predicate AllEmailChars(s: string) {
    forall i :: 0 <= i < |s| ==> IsEmailChar(s[i])
  }

  /** The test the pattern performs: split at the '@', then look for an inner '.' in the domain. */
  predicate IsValidEmail(s: string) {
    match IndexOf(s, '@')
    case None => false
    case Some(k) =>
      var domain := s[k + 1..];
      0 < k && AllEmailChars(s[..k]) && AllEmailChars(domain)
      && |domain| >= 3 && '.' in domain[1..|domain| - 1]
  }

  /** The split-based test accepts exactly the strings the pattern matches. */
  lemma IsValidEmailIff(s: string)
    ensures IsValidEmail(s) <==> MatchesEmailPattern(s)
  {
    if IsValidEmail(s) {
      var k := IndexOf(s, '@').value;
      var domain := s[k + 1..];
      var d :| 0 <= d < |domain[1..|domain| - 1]| && domain[1..|domain| - 1][d] == '.';
      var j := k + 2 + d;
      assert s[j] == '.';
      forall i | 0 <= i < |s| && i != k ensures IsEmailChar(s[i]) {
        if i < k { assert s[i] == s[..k][i]; } else { assert s[i] == domain[i - k - 1]; }
      }
    }
    if MatchesEmailPattern(s) {
      var k, j :| 0 < k && k + 1 < j && j + 1 < |s| && s[k] == '@' && s[j] == '.'
        && forall i :: 0 <= i < |s| && i != k ==> IsEmailChar(s[i]);
      assert IndexOf(s, '@') == Some(k);
      var domain := s[k + 1..];
      assert AllEmailChars(s[..k]) by {
        forall i | 0 <= i < k ensures IsEmailChar(s[..k][i]) { assert s[..k][i] == s[i]; }
      }
      assert AllEmailChars(domain) by {
        forall i | 0 <= i < |domain| ensures IsEmailChar(domain[i]) { assert domain[i] == s[k + 1 + i]; }
      }
      assert domain[1..|domain| - 1][j - k - 2] == '.';
    }
  }

  function TrimStart(s: string): (r: string)
    ensures |r| <= |s|
  {
    if s != [] && IsJsWhitespace(s[0]) then TrimStart(s[1..]) else s
  }

  function TrimEnd(s: string): (r: string)
    ensures |r| <= |s|
  {
    if s != [] && IsJsWhitespace(s[|s| - 1]) then TrimEnd(s[..|s| - 1]) else s
  }

  /** `String.prototype.trim` */
  function Trim(s: string): string {
    TrimEnd(TrimStart(s))
  }

  /** A string trims to nothing exactly when every character of it is white space. */
  lemma {:induction false} TrimEmptyIff(s: string)
    ensures |Trim(s)| == 0 <==> forall i :: 0 <= i < |s| ==> IsJsWhitespace(s[i])
  {
    TrimStartEmptyIff(s);
    var t := TrimStart(s);
    if t != [] {
      assert !IsJsWhitespace(t[0]) by { TrimStartHead(s); }
      TrimEndKeepsHead(t);
    }
  }

  lemma {:induction false} TrimStartEmptyIff(s: string)
    ensures TrimStart(s) == [] <==> forall i :: 0 <= i < |s| ==> IsJsWhitespace(s[i])
    decreases |s|
  {
    if s != [] && IsJsWhitespace(s[0]) {
      TrimStartEmptyIff(s[1..]);
      assert forall i :: 1 <= i < |s| ==> s[i] == s[1..][i - 1];
    }
  }

  lemma {:induction false} TrimStartHead(s: string)
    requires TrimStart(s) != []
    ensures !IsJsWhitespace(TrimStart(s)[0])
    decreases |s|
  {
    if s != [] && IsJsWhitespace(s[0]) { TrimStartHead(s[1..]); }
  }

  lemma {:induction false} TrimEndKeepsHead(s: string)
    requires s != [] && !IsJsWhitespace(s[0])
    ensures TrimEnd(s) != []
    decreases |s|
  {
    if IsJsWhitespace(s[|s| - 1]) { TrimEndKeepsHead(s[..|s| - 1]); }
  }

  /**
   * `validateInput`: the empty value is rejected for every kind; an email must match the pattern;
   * a security answer must hold a character other than white space; a password is always
   * accepted. It returns true or throws a `ValidationError`.
   */
  function ValidateInput(value: string, kind: InputKind): (r: Result<bool>)
    ensures r.Ok? ==> r.value
    ensures r.Threw? ==> r.thrown.Raised? && r.thrown.error.cls == ValidationError
    ensures value == "" ==> r == Fail(ValidationError, KindName(kind) + " is required")
    ensures value != "" && kind == Email ==>
              r == if MatchesEmailPattern(value) then Ok(true) else Fail(ValidationError, "Invalid email format")
    ensures value != "" && kind == Password ==> r == Ok(true)
    ensures value != "" && kind == SecurityAnswer ==>
              r == if forall i :: 0 <= i < |value| ==> IsJsWhitespace(value[i])
                   then Fail(ValidationError, "Security answer cannot be empty") else Ok(true)
  {
    if value == "" then Fail(ValidationError, KindName(kind) + " is required")
    else match kind
      case Email =>
        IsValidEmailIff(value);
        if IsValidEmail(value) then Ok(true) else Fail(ValidationError, "Invalid email format")
      case Password => Ok(true)
      case SecurityAnswer =>
        TrimEmptyIff(value);
        if |Trim(value)| == 0 then Fail(ValidationError, "Security answer cannot be empty") else Ok(true)
  }

  /**
   * What the page answers while `verifyInputValue` runs: whether the field exists at the start,
   * the value read by each poll the timeout leaves room for, and the final state read before the
   * timeout error (whose content is only logged).
   */
  datatype VerifyAnswers = VerifyAnswers(initial: Result<bool>, polls: seq<ValueProbe>, final: Result<()>)

  /** A poll that neither ends the wait nor throws: the field is there and holds another value. */
  predicate KeepsPolling(p: ValueProbe, expected: string) {
    p.Ok? && p.value.Some? && p.value.value != expected
  }

  /** The index of the poll that ends the wait, or the number of polls if none does. */
  function PollStop(polls: seq<ValueProbe>, expected: string): (k: nat)
    ensures k <= |polls|
    ensures forall i :: 0 <= i < k ==> KeepsPolling(polls[i], expected)
    ensures k < |polls| ==> !KeepsPolling(polls[k], expected)
  {
    if polls == [] || !KeepsPolling(polls[0], expected) then 0 else 1 + PollStop(polls[1..], expected)
  }

  /** The value the wait last saw before poll `k`, or "" before the first poll. */
  function LastSeen(polls: seq<ValueProbe>, k: nat, expected: string): (v: string)
    requires k <= |polls| && forall i :: 0 <= i < k ==> KeepsPolling(polls[i], expected)
    ensures k > 0 ==> polls[k - 1] == Ok(Some(v)) && v != expected
  {
    if k == 0 then "" else assert KeepsPolling(polls[k - 1], expected); polls[k - 1].value.value
  }

  function TimeoutMessage(lastValue: string, expected: string): string {
    "Input verification failed: Value does not match expected (Current: " + NatToString(|lastValue|)
    + " chars, Expected: " + NatToString(|expected|) + " chars)"
  }

  /**
   * The outcome of `verifyInputValue`: it throws if the field is missing at the start or vanishes
   * during a poll, returns true at the first poll that reads the expected value, and otherwise
   * throws once the polls run out, reporting the length of the last value seen.
   */
  function VerifyOutcome(ans: VerifyAnswers, expected: string): (r: Result<bool>)
    ensures r.Ok? ==> r.value
  {
    match ans.initial
    case Threw(t) => Threw(t)
    case Ok(exists_) =>
      if !exists_ then Fail(ValidationError, "Input element not found during verification")
      else
        var k := PollStop(ans.polls, expected);
        if k < |ans.polls| then
          match ans.polls[k]
          case Threw(t) => Threw(t)
          case Ok(None) => Fail(ValidationError, "Input element disappeared during verification")
          case Ok(Some(_)) => Ok(true)
        else
          match ans.final
          case Threw(t) => Threw(t)
          case Ok(_) => Fail(ValidationError, TimeoutMessage(LastSeen(ans.polls, k, expected), expected))
  }

  /** The first poll that does not keep the wait going is the one `PollStop` finds. */
  lemma PollStopAt(polls: seq<ValueProbe>, expected: string, k: nat)
    requires k < |polls| && !KeepsPolling(polls[k], expected)
    requires forall i :: 0 <= i < k ==> KeepsPolling(polls[i], expected)
    ensures PollStop(polls, expected) == k
  {
  }

  /** The poll ending the wait at index `k`: reached with the field present at the start. */
  ghost predicate StopsAt(ans: VerifyAnswers, expected: string, k: int) {
    ans.initial == Ok(true) && 0 <= k < |ans.polls|
    && forall i :: 0 <= i < k ==> KeepsPolling(ans.polls[i], expected)
  }

  /** Verification succeeds exactly when some poll reads the expected value and every poll before it read another value. */
  lemma VerifySucceedsIff(ans: VerifyAnswers, expected: string)
    ensures VerifyOutcome(ans, expected) == Ok(true) <==>
              exists k :: StopsAt(ans, expected, k) && ans.polls[k] == Ok(Some(expected))
  {
    if VerifyOutcome(ans, expected) == Ok(true) {
      assert StopsAt(ans, expected, PollStop(ans.polls, expected));
    }
    if exists k :: StopsAt(ans, expected, k) && ans.polls[k] == Ok(Some(expected)) {
      var k :| StopsAt(ans, expected, k) && ans.polls[k] == Ok(Some(expected));
      PollStopAt(ans.polls, expected, k);
    }
  }

  /** A field missing at the start, or gone at the poll that ends the wait, is reported as such. */
  lemma VerifyMissingField(ans: VerifyAnswers, expected: string, k: int)
    ensures ans.initial == Ok(false) ==>
              VerifyOutcome(ans, expected) == Fail(ValidationError, "Input element not found during verification")
    ensures StopsAt(ans, expected, k) && ans.polls[k] == Ok(None) ==>
              VerifyOutcome(ans, expected) == Fail(ValidationError, "Input element disappeared during verification")
  {
    if StopsAt(ans, expected, k) && ans.polls[k] == Ok(None) {
      PollStopAt(ans.polls, expected, k);
    }
  }

  /** When every poll reads another value, the wait runs through all of them. */
  lemma {:induction false} PollStopAll(polls: seq<ValueProbe>, expected: string)
    requires forall i :: 0 <= i < |polls| ==> KeepsPolling(polls[i], expected)
    ensures PollStop(polls, expected) == |polls|
  {
    if polls != [] {
      PollStopAll(polls[1..], expected);
    }
  }

  /**
   * When every poll reads another value, the wait fails with the timeout message, which reports
   * the length of the value the last poll read (or 0 when there was no poll).
   */
  lemma VerifyTimesOut(ans: VerifyAnswers, expected: string)
    requires ans.initial == Ok(true) && ans.final.Ok?
    requires forall i :: 0 <= i < |ans.polls| ==> KeepsPolling(ans.polls[i], expected)
    ensures VerifyOutcome(ans, expected)
              == Fail(ValidationError, TimeoutMessage(LastSeen(ans.polls, |ans.polls|, expected), expected))
  {
    PollStopAll(ans.polls, expected);
  }

  /** `verifyInputValue`, polling once per answer in `ans.polls`. */
  method VerifyInputValue(expected: string, ans: VerifyAnswers) returns (r: Result<bool>)
    ensures r == VerifyOutcome(ans, expected)
  {
    var lastValue := "";
    match ans.initial {
      case Threw(t) => return Threw(t);
      case Ok(exists_) =>
        if !exists_ {
          return Fail(ValidationError, "Input element not found during verification");
        }
    }
    var polled := 0;
    while polled < |ans.polls|
      invariant 0 <= polled <= |ans.polls|
      invariant forall i :: 0 <= i < polled ==> KeepsPolling(ans.polls[i], expected)
      invariant lastValue == LastSeen(ans.polls, polled, expected)
    {
      var inputState := ans.polls[polled];
      match inputState {
        case Threw(t) => return Threw(t);
        case Ok(state) =>
          if state.None? {
            return Fail(ValidationError, "Input element disappeared during verification");
          }
          if state.value == expected {
            return Ok(true);
          }
          if state.value != lastValue {
            lastValue := state.value;
          }
      }
      polled := polled + 1;
    }
    if ans.final.Threw? {
      return Threw(ans.final.thrown);
    }
    return Fail(ValidationError, TimeoutMessage(lastValue, expected));
  }
}
