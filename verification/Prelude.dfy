/** Values and text helpers shared by every component model. */
module Prelude {

  datatype Option<+T> = None | Some(value: T)

  datatype Result<+T, +E> = Success(value: T) | Failure(error: E)

  newtype byte = x: int | 0 <= x < 256

  const U32_MAX: int := 0xFFFF_FFFF

  type u32 = n: int | 0 <= n <= U32_MAX

  /** The Unicode `White_Space` property, which `str::trim` uses. */
  predicate IsWhitespace(c: char) {
    var n := c as int;
    || 0x9 <= n <= 0xD || n == 0x20 || n == 0x85 || n == 0xA0 || n == 0x1680
    || 0x2000 <= n <= 0x200A || n == 0x2028 || n == 0x2029 || n == 0x202F
    || n == 0x205F || n == 0x3000
  }

  /** Its twenty-five characters. */
  lemma WhitespaceIs(c: char)
    ensures IsWhitespace(c) <==>
            || c in "\t\n\U{B}\U{C}\r \U{85}\U{A0}\U{1680}"
            || c in "\U{2000}\U{2001}\U{2002}\U{2003}\U{2004}\U{2005}\U{2006}\U{2007}\U{2008}\U{2009}\U{200A}"
            || c in "\U{2028}\U{2029}\U{202F}\U{205F}\U{3000}"
  {}

  /** The first position at or after `i` that is not whitespace. */
  function FirstVisible(s: string, i: nat): (r: nat)
    requires i <= |s|
    ensures i <= r <= |s|
    ensures forall k :: i <= k < r ==> IsWhitespace(s[k])
    ensures r < |s| ==> !IsWhitespace(s[r])
    decreases |s| - i
  {
    if i < |s| && IsWhitespace(s[i]) then FirstVisible(s, i + 1) else i
  }

  /** The end of the last visible character of `s[i..j]`. */
  function LastVisible(s: string, i: nat, j: nat): (r: nat)
    requires i <= j <= |s|
    ensures i <= r <= j
    ensures forall k :: r <= k < j ==> IsWhitespace(s[k])
    ensures r > i ==> !IsWhitespace(s[r - 1])
    decreases j
  {
    if i < j && IsWhitespace(s[j - 1]) then LastVisible(s, i, j - 1) else j
  }

  function Trim(s: string): (t: string)
  {
    var i := FirstVisible(s, 0);
    s[i..LastVisible(s, i, |s|)]
  }

  lemma Associative<T>(a: seq<T>, b: seq<T>, c: seq<T>)
    ensures a + (b + c) == a + b + c
  {}

  predicate Blank(s: string) {
    forall c <- s :: IsWhitespace(c)
  }

  lemma {:induction false} TrimRemovesBlanks(left: string, token: string, right: string)
    requires Blank(left) && Blank(right)
    requires token != "" && !IsWhitespace(token[0]) && !IsWhitespace(token[|token| - 1])
    ensures Trim(left + token + right) == token
  {
    var s := left + token + right;
    var i := FirstVisible(s, 0);
    assert forall k :: 0 <= k < |left| ==> s[k] == left[k] && left[k] in left;
    assert s[|left|] == token[0];
    assert i == |left|;
    var j := LastVisible(s, i, |s|);
    assert forall k :: |left| + |token| <= k < |s| ==> s[k] == right[k - |left| - |token|] && s[k] in right;
    assert s[|left| + |token| - 1] == token[|token| - 1];
    assert j == |left| + |token|;
    assert s[i..j] == token;
  }

  /** What trimming leaves is the text between its outermost blanks. */
  lemma TrimLeavesTheMiddle(s: string) returns (left: string, right: string)
    ensures Blank(left) && Blank(right) && s == left + Trim(s) + right
  {
    var i := FirstVisible(s, 0);
    var j := LastVisible(s, i, |s|);
    left, right := s[..i], s[j..];
  }

  lemma {:induction false} TrimIgnoresBlanks(left: string, text: string, right: string)
    requires Blank(left) && Blank(right)
    ensures Trim(left + text + right) == Trim(text)
  {
    var a, b := TrimLeavesTheMiddle(text);
    var s, token := left + text + right, Trim(text);
    if token == "" {
      BlankTrims(text);
      assert forall c <- s :: c in left || c in text || c in right;
      BlankTrims(s);
    } else {
      TrimmedEnds(text);
      assert s == (left + a) + token + (b + right);
      assert Blank(left + a) && Blank(b + right);
      TrimRemovesBlanks(left + a, token, b + right);
    }
  }

  lemma TrimIgnoresLeft(left: string, text: string)
    requires Blank(left)
    ensures Trim(left + text) == Trim(text)
  {
    var none: string := [];
    TrimIgnoresBlanks(left, text, none);
    assert left + text + none == left + text;
  }

  lemma TrimIgnoresRight(text: string, right: string)
    requires Blank(right)
    ensures Trim(text + right) == Trim(text)
  {
    var none: string := [];
    TrimIgnoresBlanks(none, text, right);
    assert none + text + right == text + right;
  }

  lemma TrimmedEnds(s: string)
    requires Trim(s) != ""
    ensures !IsWhitespace(Trim(s)[0]) && !IsWhitespace(Trim(s)[|Trim(s)| - 1])
  {
    var i := FirstVisible(s, 0);
    var j := LastVisible(s, i, |s|);
    assert Trim(s)[0] == s[i] && Trim(s)[|Trim(s)| - 1] == s[j - 1];
  }

  lemma BlankTrims(s: string)
    ensures Trim(s) == "" <==> Blank(s)
  {
    if Trim(s) == "" {
      var i := FirstVisible(s, 0);
      assert i == |s|;
    } else {
      assert s[FirstVisible(s, 0)] in s;
    }
  }

  /** Decimal digits, as the formatter writes an unsigned number. */
  function Decimal(n: nat): string {
    if n < 10 then [('0' as int + n) as char] else Decimal(n / 10) + [('0' as int + n % 10) as char]
  }

  predicate IsDigit(c: char) {
    '0' <= c <= '9'
  }

  predicate AllDigits(s: string) {
    forall c <- s :: IsDigit(c)
  }

  /** What a run of digits denotes. */
  function Number(digits: string): nat {
    if digits == "" || !IsDigit(digits[|digits| - 1]) then 0
    else 10 * Number(digits[..|digits| - 1]) + (digits[|digits| - 1] as int - '0' as int)
  }

  lemma {:induction false} DecimalIsItsNumber(n: nat)
    ensures AllDigits(Decimal(n)) && Decimal(n) != "" && Number(Decimal(n)) == n
  {
    var s := Decimal(n);
    assert s[|s| - 1] == ('0' as int + n % 10) as char;
    if n >= 10 {
      DecimalIsItsNumber(n / 10);
      assert s[..|s| - 1] == Decimal(n / 10);
    } else {
      assert s[..|s| - 1] == "";
    }
  }
}
