/** What Array.prototype.splice(start, 1) does when `start` is an ObjectId, as the
    handlers pass it. The engine turns the start into an integer with
    ToIntegerOrInfinity(ToNumber(start)). For an ObjectId that means ToNumber of its
    24-character lower-case hexadecimal string: NaN (so 0) unless the string is a
    decimal literal (digits, or digits "e" digits) or a binary literal ("0b" and
    binary digits). */
module JsArray {

  predicate IsDigit(c: char) { '0' <= c <= '9' }

  predicate IsLowerHexDigit(c: char) {
    '0' <= c <= '9' || 'a' <= c <= 'f'
  }

  /** The string form of an ObjectId, as stored ids and ObjectId.toString have it:
      24 lower-case hexadecimal digits. */
  predicate IsStoredId(s: string) {
    |s| == 24 && forall i :: 0 <= i < |s| ==> IsLowerHexDigit(s[i])
  }

  predicate AllDigits(s: string) {
    forall i :: 0 <= i < |s| ==> IsDigit(s[i])
  }

  /** The value of a string of decimal digits. */
  function DigitsValue(s: string): nat
    requires AllDigits(s)
    decreases |s|
  {
    if s == [] then 0 else 10 * DigitsValue(s[..|s| - 1]) + (s[|s| - 1] as int - '0' as int)
  }

  function Pow10(e: nat): nat {
    if e == 0 then 1 else 10 * Pow10(e - 1)
  }

  /** The first position of `c` in `s`, or |s| when it does not occur. */
  function IndexOf(s: string, c: char): (r: nat)
    ensures r <= |s|
    ensures r < |s| ==> s[r] == c
    ensures forall k :: 0 <= k < r ==> s[k] != c
  {
    if s == [] then 0 else if s[0] == c then 0 else 1 + IndexOf(s[1..], c)
  }

  /** The string is a decimal literal of the form digits "e" digits. */
  predicate IsExponentLiteral(s: string) {
    var e := IndexOf(s, 'e');
    0 < e < |s| - 1 && AllDigits(s[..e]) && AllDigits(s[e + 1..])
  }

  predicate IsBit(c: char) { c == '0' || c == '1' }

  /** The string is a binary literal: "0b" followed by at least one binary digit. */
  predicate IsBinaryLiteral(s: string) {
    |s| > 2 && s[0] == '0' && s[1] == 'b' && forall i :: 2 <= i < |s| ==> IsBit(s[i])
  }

  /** The value of a string of binary digits. */
  function BitsValue(s: string): nat
    requires forall i :: 0 <= i < |s| ==> IsBit(s[i])
    decreases |s|
  {
    if s == [] then 0 else 2 * BitsValue(s[..|s| - 1]) + (if s[|s| - 1] == '1' then 1 else 0)
  }

  /** ToIntegerOrInfinity(ToNumber(s)), clamped below at 0, for a string over the
      alphabet 0-9a-f (the only strings ObjectId.toString produces). A string of digits
      is its decimal value; digits "e" digits is mantissa times a power of ten; "0b"
      and binary digits is the binary value; any other string is NaN, which becomes 0.
      None of these forms can be negative or fractional over this alphabet, so a
      non-zero position comes only from a string whose every character is a digit,
      the exponent "e" or the "b" of a "0b" prefix. */
  function NumericIndex(s: string): (r: nat)
    ensures r > 0 ==> forall k :: 0 <= k < |s| ==>
      IsDigit(s[k]) || s[k] == 'e' || (k == 1 && s[0] == '0' && s[k] == 'b')
  {
    if s != [] && AllDigits(s) then DigitsValue(s)
    else if IsExponentLiteral(s) then
      var e := IndexOf(s, 'e');
      assert forall k :: 0 <= k < e ==> s[k] == s[..e][k];
      assert forall k :: e < k < |s| ==> s[k] == s[e + 1..][k - e - 1];
      DigitsValue(s[..e]) * Pow10(DigitsValue(s[e + 1..]))
    else if IsBinaryLiteral(s) then BitsValue(s[2..])
    else 0
  }

  /** a.splice(start, 1) for a non-negative integer start: the start is clamped to the
      length, and one element is removed when the clamped start is inside the array. */
  function SpliceOne<T>(a: seq<T>, start: nat): (r: seq<T>)
    ensures start < |a| ==> |r| == |a| - 1 && multiset(r) + multiset{a[start]} == multiset(a)
    ensures start >= |a| ==> r == a
  {
    if start < |a| then
      assert a == a[..start] + [a[start]] + a[start + 1..];
      a[..start] + a[start + 1..]
    else a
  }

  /** A string with a character other than a digit or "e" (any of a, c, d, f in an
      ObjectId, or a "b" that is not the second character after a leading "0") is NaN
      as a number, so as a splice start it means position 0. */
  lemma NonNumericIndex(s: string, k: nat)
    requires k < |s| && !IsDigit(s[k]) && s[k] != 'e'
    requires !(k == 1 && s[0] == '0' && s[1] == 'b')
    ensures NumericIndex(s) == 0
  {
  }

  /** Splicing one element out keeps the order of the rest: the same elements before
      the start, and the later ones moved down by one. */
  lemma SpliceOneEffect<T>(a: seq<T>, start: nat)
    ensures forall k :: 0 <= k < |SpliceOne(a, start)| && k < start ==> SpliceOne(a, start)[k] == a[k]
    ensures forall k :: start <= k < |SpliceOne(a, start)| ==> SpliceOne(a, start)[k] == a[k + 1]
  {
  }

  /** Strings that coerce to small positions: an id written as a decimal or binary
      literal is not NaN, so splicing with it need not remove position 0. */
  lemma NumericIndexExamples()
    ensures NumericIndex("0") == 0
    ensures NumericIndex("01") == 1
    ensures NumericIndex("1e1") == 10
    ensures NumericIndex("0b101") == 5
    ensures NumericIndex("c0ffee") == 0
  {
    assert AllDigits("01");
    assert "01"[..1] == "0";
    assert AllDigits("0");
    assert DigitsValue("0") == 0;
    assert DigitsValue("01") == 1;
    assert "1e1"[1] == 'e' && !IsDigit('e');
    assert !AllDigits("1e1");
    assert IndexOf("1e1", 'e') == 1;
    assert "1e1"[..1] == "1" && "1e1"[2..] == "1";
    assert "1"[..0] == "";
    assert AllDigits("1") && DigitsValue("1") == 1;
    assert "0b101"[1] == 'b' && !IsDigit('b');
    assert IndexOf("0b101", 'e') == 5;
    assert IsBinaryLiteral("0b101") && "0b101"[2..] == "101";
    assert "101"[..2] == "10" && "10"[..1] == "1" && "1"[..0] == "";
    assert BitsValue("101") == 5;
    NonNumericIndex("c0ffee", 0);
  }
}
