/** The one JavaScript coercion the decision engine depends on: comparing
    a string to `false` with loose equality. `s == false` converts both
    sides to numbers and holds exactly when ToNumber(s) is 0. */
module JsCoercion {

  /** The white space and line terminators ToNumber strips before parsing
      (StrWhiteSpaceChar of ECMAScript: TAB, VT, FF, SP, NBSP, ZWNBSP, the
      other space separators, LF, CR, LS and PS). */
  predicate IsSpace(ch: char)
  {
    || ch == '\t' || ch == '\U{000B}' || ch == '\U{000C}' || ch == ' '
    || ch == '\U{00A0}' || ch == '\U{FEFF}' || ch == '\U{1680}'
    || ('\U{2000}' <= ch <= '\U{200A}')
    || ch == '\U{202F}' || ch == '\U{205F}' || ch == '\U{3000}'
    || ch == '\n' || ch == '\r' || ch == '\U{2028}' || ch == '\U{2029}'
  }

  /** `s` with its leading white space removed. */
  function TrimStart(s: string): (t: string)
    ensures |t| <= |s| && t == s[|s| - |t|..]
    ensures |t| > 0 ==> !IsSpace(t[0])
    ensures forall i :: 0 <= i < |s| - |t| ==> IsSpace(s[i])
    decreases |s|
  {
    if |s| > 0 && IsSpace(s[0]) then TrimStart(s[1..]) else s
  }

  /** A necessary condition for ToNumber(s) == 0: once trimmed, the string
      is empty or starts like a numeric literal (sign, point or digit).
      Any other first character makes ToNumber NaN or an infinity. */
  predicate LooselyEqualsFalse(s: string)
  {
    var t := TrimStart(s);
    |t| == 0 || t[0] in "+-.0123456789"
  }

  /** Strings that begin with a letter never loosely equal `false`. */
  lemma LetterFirstIsNotFalse(s: string)
    requires |s| > 0 && 'A' <= s[0] <= 'Z'
    ensures !LooselyEqualsFalse(s)
  {
    assert !IsSpace(s[0]);
    assert TrimStart(s) == s;
  }
}
