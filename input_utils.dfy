/**
 * src/handlers/shared/input-utils.ts: `typeNaturally`, which types a text with a pause range chosen
 * per character, and `generateUniqueSelector`, which looks for a selector that matches one element.
 */
module InputUtils {
  import opened Text
  import opened Optional
  import opened Errors
  import opened Config
  import opened Browser

  /** The characters of the class `[!@#$%^&*(),.?":{}|<>]`. */
  const SpecialChars := "!@#$%^&*(),.?\":{}|<>"

  /** The pause range for one key press: SPECIAL_CHAR for the special characters, NORMAL_CHAR for the rest. */
  function KeyDelay(c: char): (d: DelayRange)
    ensures d == SpecialCharDelay <==> c in SpecialChars
    ensures d == SpecialCharDelay || d == NormalCharDelay
  {
    if c in SpecialChars then SpecialCharDelay else NormalCharDelay
  }

  /**
   * `typeNaturally`: one key press per character of the text, in order, then a MEDIUM pause.
   * `isPassword` only changes what is logged.
   */
  method TypeNaturally(text: string, isPassword: bool) returns (keys: seq<Keystroke>, settle: DelayRange)
    ensures Typed(keys) == text
    ensures forall i :: 0 <= i < |keys| ==> keys[i].pause == KeyDelay(text[i])
    ensures settle == Medium
  {
    keys := [];
    var i := 0;
    while i < |text|
      invariant i <= |text|
      invariant |keys| == i
      invariant forall j :: 0 <= j < i ==> keys[j] == Keystroke(text[j], KeyDelay(text[j]))
    {
      var c := text[i];
      keys := keys + [Keystroke(c, KeyDelay(c))];
      i := i + 1;
    }
    settle := Medium;
  }

  /** An attribute of an element. */
  datatype Attribute = Attribute(name: string, value: string)

  /** The parent's tag name and the element's 0-based index among the parent's children. */
  datatype ParentInfo = ParentInfo(tag: string, index: nat)

  /** What the cascade reads of an element. */
  datatype Element = Element(
    tag: string,
    id: string,
    classes: seq<string>,
    attributes: seq<Attribute>,
    parent: Option<ParentInfo>)

  /**
   * `document.querySelectorAll(selector).length` for each candidate selector, or the exception it
   * throws (a candidate built from a class name or attribute value may not parse as a selector).
   */
  type MatchCount = string -> Result<nat>

  function ClassSelector(classes: seq<string>): string {
    "." + Join(classes, ".")
  }

  function AttributeSelector(a: Attribute): string {
    "[" + a.name + "=\"" + a.value + "\"]"
  }

  function NthChildSelector(tag: string, p: ParentInfo): string {
    ToLowerAscii(p.tag) + " > " + ToLowerAscii(tag) + ":nth-child(" + NatToString(p.index + 1) + ")"
  }

  /** A candidate the cascade accepts: it matches exactly one element. */
  predicate Unique(count: MatchCount, selector: string) {
    count(selector) == Ok(1)
  }

  predicate IsDataAttribute(a: Attribute) {
    StartsWith(a.name, "data-")
  }

  /**
   * The loop over the attributes: the selector of the first data attribute that is unique, None
   * when there is none, or the exception of the first count that throws.
   */
  function FirstUniqueDataAttribute(attributes: seq<Attribute>, count: MatchCount): (r: Result<Option<string>>)
    ensures r == Ok(None) <==> forall i :: 0 <= i < |attributes| && IsDataAttribute(attributes[i]) ==>
              count(AttributeSelector(attributes[i])).Ok? && !Unique(count, AttributeSelector(attributes[i]))
    ensures r.Ok? && r.value.Some? ==>
              exists i :: (0 <= i < |attributes| && IsDataAttribute(attributes[i])
                && r.value.value == AttributeSelector(attributes[i]) && Unique(count, r.value.value)
                && forall j :: 0 <= j < i && IsDataAttribute(attributes[j]) ==> !Unique(count, AttributeSelector(attributes[j])))
  {
    if attributes == [] then Ok(None)
    else
      var a := attributes[0];
      var rest := FirstUniqueDataAttribute(attributes[1..], count);
      assert forall i :: 1 <= i < |attributes| ==> attributes[i] == attributes[1..][i - 1];
      if !IsDataAttribute(a) then rest
      else match count(AttributeSelector(a))
        case Threw(t) => Threw(t)
        case Ok(n) =>
          if n == 1 then Ok(Some(AttributeSelector(a))) else rest
  }

  /**
   * `generateUniqueSelector`: the id selector for an element with an id (no uniqueness check);
   * otherwise the first candidate that matches exactly one element among the class selector, the
   * data-attribute selectors in attribute order, and the nth-child selector; null when none does.
   */
  function GenerateUniqueSelector(e: Element, count: MatchCount): (r: Result<Option<string>>)
    ensures e.id != "" ==> r == Ok(Some("#" + e.id))
    ensures e.id == "" && |e.classes| > 0 && Unique(count, ClassSelector(e.classes)) ==>
              r == Ok(Some(ClassSelector(e.classes)))
    ensures r.Ok? && r.value.Some? && e.id == "" ==> Unique(count, r.value.value)
    ensures r == Ok(None) <==>
              (e.id == ""
              && (|e.classes| > 0 ==> count(ClassSelector(e.classes)).Ok? && !Unique(count, ClassSelector(e.classes)))
              && FirstUniqueDataAttribute(e.attributes, count) == Ok(None)
              && (e.parent.Some? ==> count(NthChildSelector(e.tag, e.parent.value)).Ok?
                                     && !Unique(count, NthChildSelector(e.tag, e.parent.value))))
  {
    if e.id != "" then Ok(Some("#" + e.id))
    else
      var classResult :=
        if |e.classes| > 0 then
          match count(ClassSelector(e.classes))
          case Threw(t) => Threw(t)
          case Ok(n) => if n == 1 then Ok(Some(ClassSelector(e.classes))) else Ok(None)
        else Ok(None);
      if classResult != Ok(None) then classResult
      else
        var dataResult := FirstUniqueDataAttribute(e.attributes, count);
        if dataResult != Ok(None) then dataResult
        else if e.parent.None? then Ok(None)
        else
          var selector := NthChildSelector(e.tag, e.parent.value);
          match count(selector)
          case Threw(t) => Threw(t)
          case Ok(n) => if n == 1 then Ok(Some(selector)) else Ok(None)
  }

  /** A data-attribute candidate is returned only when it comes from an attribute named "data-...". */
  lemma DataCandidateOrigin(e: Element, count: MatchCount)
    requires e.id == "" && (|e.classes| > 0 ==> !Unique(count, ClassSelector(e.classes)))
    requires FirstUniqueDataAttribute(e.attributes, count).Ok? && FirstUniqueDataAttribute(e.attributes, count).value.Some?
    requires |e.classes| > 0 ==> count(ClassSelector(e.classes)).Ok?
    ensures GenerateUniqueSelector(e, count) == FirstUniqueDataAttribute(e.attributes, count)
    ensures exists i :: 0 <= i < |e.attributes| && StartsWith(e.attributes[i].name, "data-")
              && GenerateUniqueSelector(e, count).value.value == AttributeSelector(e.attributes[i])
  {
  }
}
