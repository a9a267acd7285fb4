/**
 * The browser page as the services see it: its cookie jar and its local storage, the answers a
 * page query gives, and the keystrokes typing sends. Everything the page computes itself
 * (selectors, navigation, rendering) is an answer passed in by the caller.
 */
module Browser {
  import opened Optional
  import opened Errors
  import opened Config

  /** A cookie, identified by its name, domain and path. */
  datatype Cookie = Cookie(name: string, value: string, domain: string, path: string)

  predicate SameSlot(a: Cookie, b: Cookie) {
    a.name == b.name && a.domain == b.domain && a.path == b.path
  }

  /** The names of the cookies in a jar. */
  function Names(jar: seq<Cookie>): set<string> {
    set c | c in jar :: c.name
  }

  /** The jar without the cookies `c` would replace. */
  function Without(jar: seq<Cookie>, c: Cookie): (r: seq<Cookie>)
    ensures forall d :: d in r <==> d in jar && !SameSlot(d, c)
  {
    if jar == [] then []
    else if SameSlot(jar[0], c) then Without(jar[1..], c)
    else [jar[0]] + Without(jar[1..], c)
  }

  /** `page.setCookie(c)`: the cookie replaces any cookie with the same name, domain and path. */
  function SetCookie(jar: seq<Cookie>, c: Cookie): (r: seq<Cookie>)
    ensures c in r
    ensures forall d :: d in r ==> d == c || (d in jar && !SameSlot(d, c))
    ensures forall d :: d in jar && !SameSlot(d, c) ==> d in r
  {
    Without(jar, c) + [c]
  }

  /** `page.setCookie(...cs)`: the cookies are set one after another. */
  function SetCookies(jar: seq<Cookie>, cs: seq<Cookie>): seq<Cookie>
    decreases |cs|
  {
    if cs == [] then jar else SetCookies(SetCookie(jar, cs[0]), cs[1..])
  }

  /** After setting cookies, the jar holds a cookie of every name it held before and of every name set. */
  lemma {:induction false} SetCookiesNames(jar: seq<Cookie>, cs: seq<Cookie>)
    ensures Names(SetCookies(jar, cs)) == Names(jar) + Names(cs)
    decreases |cs|
  {
    if cs != [] {
      var c := cs[0];
      var next := SetCookie(jar, c);
      assert Names(next) == Names(jar) + {c.name} by {
        forall n | n in Names(jar) + {c.name} ensures n in Names(next) {
          if n != c.name {
            var d :| d in jar && d.name == n;
            assert d in next;
          }
        }
      }
      SetCookiesNames(next, cs[1..]);
      assert Names(cs) == {c.name} + Names(cs[1..]) by {
        assert forall d :: d in cs <==> d == c || d in cs[1..];
      }
    }
  }

  /** Some cookie of `cs` shares the slot of `x`. */
  predicate Covered(x: Cookie, cs: seq<Cookie>) {
    cs != [] && (SameSlot(x, cs[0]) || Covered(x, cs[1..]))
  }

  /** The cookies of the jar, in order, whose slot no cookie of `cs` shares. */
  function Outside(jar: seq<Cookie>, cs: seq<Cookie>): seq<Cookie>
  {
    if jar == [] then []
    else (if Covered(jar[0], cs) then [] else [jar[0]]) + Outside(jar[1..], cs)
  }

  lemma {:induction false} OutsideAppend(a: seq<Cookie>, b: seq<Cookie>, cs: seq<Cookie>)
    ensures Outside(a + b, cs) == Outside(a, cs) + Outside(b, cs)
  {
    if a != [] {
      assert (a + b)[1..] == a[1..] + b;
      OutsideAppend(a[1..], b, cs);
    } else {
      assert a + b == b;
    }
  }

  lemma {:induction false} OutsideNothing(jar: seq<Cookie>)
    ensures Outside(jar, []) == jar
  {
    if jar != [] {
      OutsideNothing(jar[1..]);
    }
  }

  /** Removing the slot of the first cookie of `cs` and then the slots of the rest removes the slots of `cs`. */
  lemma {:induction false} OutsideWithout(jar: seq<Cookie>, cs: seq<Cookie>)
    requires cs != []
    ensures Outside(Without(jar, cs[0]), cs[1..]) == Outside(jar, cs)
  {
    if jar != [] {
      OutsideWithout(jar[1..], cs);
      if !SameSlot(jar[0], cs[0]) {
        OutsideAppend([jar[0]], Without(jar[1..], cs[0]), cs[1..]);
      }
    }
  }

  lemma {:induction false} OutsideTwice(jar: seq<Cookie>, cs: seq<Cookie>)
    ensures Outside(Outside(jar, cs), cs) == Outside(jar, cs)
  {
    if jar != [] {
      OutsideTwice(jar[1..], cs);
      OutsideAppend(if Covered(jar[0], cs) then [] else [jar[0]], Outside(jar[1..], cs), cs);
    }
  }

  lemma {:induction false} CoveredMember(x: Cookie, cs: seq<Cookie>)
    requires x in cs
    ensures Covered(x, cs)
  {
    if cs[0] != x {
      CoveredMember(x, cs[1..]);
    }
  }

  lemma {:induction false} OutsideCovered(jar: seq<Cookie>, cs: seq<Cookie>)
    requires forall d :: d in jar ==> d in cs
    ensures Outside(jar, cs) == []
  {
    if jar != [] {
      CoveredMember(jar[0], cs);
      OutsideCovered(jar[1..], cs);
    }
  }

  /** Every cookie of a jar after setting `cs` was in the jar before or is one of `cs`. */
  lemma {:induction false} SetCookiesFrom(jar: seq<Cookie>, cs: seq<Cookie>)
    ensures forall d :: d in SetCookies(jar, cs) ==> d in jar || d in cs
    decreases |cs|
  {
    if cs != [] {
      SetCookiesFrom(SetCookie(jar, cs[0]), cs[1..]);
    }
  }

  /** One step of `SetCookies`: the first cookie replaces its slot and goes last. */
  lemma SetCookiesStep(jar: seq<Cookie>, cs: seq<Cookie>)
    requires cs != []
    ensures SetCookies(jar, cs) == SetCookies(Without(jar, cs[0]) + [cs[0]], cs[1..])
  {
  }

  /** The cookies of one step that survive the rest of `cs`. */
  lemma {:induction false} OutsideStep(jar: seq<Cookie>, cs: seq<Cookie>)
    requires cs != []
    ensures Outside(Without(jar, cs[0]) + [cs[0]], cs[1..]) == Outside(jar, cs) + Outside([cs[0]], cs[1..])
  {
    OutsideAppend(Without(jar, cs[0]), [cs[0]], cs[1..]);
    OutsideWithout(jar, cs);
  }

  /**
   * Setting `cs` keeps the old cookies whose slot `cs` does not touch, in their order, and puts
   * after them what setting `cs` on an empty jar gives.
   */
  lemma {:induction false} SetCookiesSplit(jar: seq<Cookie>, cs: seq<Cookie>)
    ensures SetCookies(jar, cs) == Outside(jar, cs) + SetCookies([], cs)
    decreases |cs|
  {
    if cs == [] {
      OutsideNothing(jar);
    } else {
      var c, rest := cs[0], cs[1..];
      assert SetCookies([], cs) == Outside([c], rest) + SetCookies([], rest) by {
        SetCookiesStep([], cs);
        assert Without([], c) + [c] == [c];
        SetCookiesSplit([c], rest);
      }
      assert SetCookies(jar, cs) == Outside(jar, cs) + Outside([c], rest) + SetCookies([], rest) by {
        SetCookiesStep(jar, cs);
        SetCookiesSplit(Without(jar, c) + [c], rest);
        OutsideStep(jar, cs);
      }
    }
  }

  /** Setting `cs` on an empty jar leaves only cookies in slots of `cs`. */
  lemma SetOnEmptyCovered(cs: seq<Cookie>)
    ensures Outside(SetCookies([], cs), cs) == []
  {
    SetCookiesFrom([], cs);
    OutsideCovered(SetCookies([], cs), cs);
  }

  /** Filtering a second time changes nothing when the appended cookies are all in slots of `cs`. */
  lemma ReapplyKeeps(jar: seq<Cookie>, added: seq<Cookie>, cs: seq<Cookie>)
    requires Outside(added, cs) == []
    ensures Outside(Outside(jar, cs) + added, cs) + added == Outside(jar, cs) + added
  {
    OutsideAppend(Outside(jar, cs), added, cs);
    OutsideTwice(jar, cs);
    assert Outside(jar, cs) + [] == Outside(jar, cs);
  }

  /** Setting the same cookies a second time leaves the jar exactly as the first time did. */
  lemma {:induction false} SetCookiesIdempotent(jar: seq<Cookie>, cs: seq<Cookie>)
    ensures SetCookies(SetCookies(jar, cs), cs) == SetCookies(jar, cs)
  {
    var once := SetCookies(jar, cs);
    SetCookiesSplit(jar, cs);
    SetCookiesSplit(once, cs);
    SetOnEmptyCovered(cs);
    ReapplyKeeps(jar, SetCookies([], cs), cs);
  }

  /** The page's own state that the session store reads and writes. */
  class Page {
    var cookies: seq<Cookie>
    var localStorage: map<string, string>

    constructor(cookies: seq<Cookie>, localStorage: map<string, string>)
      ensures this.cookies == cookies && this.localStorage == localStorage
    {
      this.cookies := cookies;
      this.localStorage := localStorage;
    }

    /** `page.setCookie(...cs)` */
    method SetCookie(cs: seq<Cookie>)
      modifies this
      ensures cookies == SetCookies(old(cookies), cs)
      ensures localStorage == old(localStorage)
    {
      cookies := SetCookies(cookies, cs);
    }

    /** `localStorage.clear()` */
    method ClearLocalStorage()
      modifies this
      ensures localStorage == map[] && cookies == old(cookies)
    {
      localStorage := map[];
    }

    /** `localStorage.setItem(key, value)` */
    method SetItem(key: string, value: string)
      modifies this
      ensures localStorage == old(localStorage)[key := value] && cookies == old(cookies)
    {
      localStorage := localStorage[key := value];
    }
  }

  /**
   * One read of an input field's value inside the page: the value, `None` when no element matches
   * the selector, or the exception the evaluation threw.
   */
  type ValueProbe = Result<Option<string>>

  /** One key press and the range its random pause is drawn from. */
  datatype Keystroke = Keystroke(key: char, pause: DelayRange)

  /** The text a sequence of key presses types. */
  function Typed(keys: seq<Keystroke>): (s: string)
    ensures |s| == |keys| && forall i :: 0 <= i < |keys| ==> s[i] == keys[i].key
  {
    if keys == [] then "" else [keys[0].key] + Typed(keys[1..])
  }

  /** The operations the login flows perform on the page, in the order a trace records them. */
  datatype Step =
    | LoadStored
    | OpenDashboard
    | CheckLogin
    | OpenLogin
    | CookieConsent
    | EnterEmail
    | CheckContinueButton
    | CheckPasswordInput
    | ClickContinue
    | AwaitPasswordInput
    | EnterPassword
    | KeepLoggedIn
    | Submit
    | SecurityQuestion
    | ProfileModal
    | Popovers
    | SaveSession
    | Screenshot
    | ErrorScreenshot
    | ErrorReport
}
