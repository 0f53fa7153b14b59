/**
 * The Python `str` operations the upload and scoring code relies on:
 * `strip()`, `capitalize()`, `lower()`, `endswith()` and `str()` of a
 * non-negative int. Case mapping covers the ASCII letters only.
 */
module PyStr {

  // ---------------------------------------------------------------- whitespace

  /** The characters for which Python's `str.isspace()` holds. */
  predicate IsSpace(c: char) {
    || ('\t' <= c <= '\r')
    || ('\U{1C}' <= c <= ' ')
    || c == '\U{85}' || c == '\U{A0}' || c == '\U{1680}'
    || ('\U{2000}' <= c <= '\U{200A}')
    || c == '\U{2028}' || c == '\U{2029}' || c == '\U{202F}'
    || c == '\U{205F}' || c == '\U{3000}'
  }

  /** `s.lstrip()`: the longest suffix of `s` that does not start with whitespace. */
  function StripLeft(s: string): (r: string)
    ensures |r| <= |s| && r == s[|s| - |r|..]
    ensures forall i :: 0 <= i < |s| - |r| ==> IsSpace(s[i])
    ensures r != [] ==> !IsSpace(r[0])
  {
    if s != [] && IsSpace(s[0]) then StripLeft(s[1..]) else s
  }

  /** `s.rstrip()`: the longest prefix of `s` that does not end with whitespace. */
  function StripRight(s: string): (r: string)
    ensures |r| <= |s| && r == s[..|r|]
    ensures forall i :: |r| <= i < |s| ==> IsSpace(s[i])
    ensures r != [] ==> !IsSpace(r[|r| - 1])
  {
    if s != [] && IsSpace(s[|s| - 1]) then StripRight(s[..|s| - 1]) else s
  }

  /** `s` has no whitespace at either end. */
  predicate IsStripped(s: string) {
    s != [] ==> !IsSpace(s[0]) && !IsSpace(s[|s| - 1])
  }

  /** `s.strip()`: `s` with the whitespace at both ends removed and nothing else. */
  function Strip(s: string): (r: string)
    ensures IsStripped(r)
    ensures exists i :: 0 <= i <= |s| && r <= s[i..]
              && (forall k :: 0 <= k < i ==> IsSpace(s[k]))
              && (forall k :: i + |r| <= k < |s| ==> IsSpace(s[k]))
  {
    StripSpan(s);
    StripRight(StripLeft(s))
  }

  /** Where Strip's result sits in `s`: it starts at |s| - |StripLeft(s)|. */
  lemma StripSpan(s: string)
    ensures var left := StripLeft(s);
            var r, i := StripRight(left), |s| - |left|;
            && r <= s[i..]
            && (forall k :: 0 <= k < i ==> IsSpace(s[k]))
            && (forall k :: i + |r| <= k < |s| ==> IsSpace(s[k]))
  {
    var left := StripLeft(s);
    var r, i := StripRight(left), |s| - |left|;
    assert left == s[i..];
    assert r <= left;
    forall k | i + |r| <= k < |s|
      ensures IsSpace(s[k])
    {
      assert s[k] == left[k - i];
    }
  }

  lemma {:induction false} StripLeftKeeps(s: string)
    requires s == [] || !IsSpace(s[0])
    ensures StripLeft(s) == s
  {
  }

  lemma {:induction false} StripRightKeeps(s: string)
    requires s == [] || !IsSpace(s[|s| - 1])
    ensures StripRight(s) == s
  {
  }

  /** Stripping a string that has no whitespace at its ends changes nothing. */
  lemma {:induction false} StripKeepsStripped(s: string)
    requires IsStripped(s)
    ensures Strip(s) == s
  {
    StripLeftKeeps(s);
    StripRightKeeps(s);
  }

  /** `strip()` is idempotent. */
  lemma StripIdempotent(s: string)
    ensures Strip(Strip(s)) == Strip(s)
  {
    StripKeepsStripped(Strip(s));
  }

  // ---------------------------------------------------------------- case

  predicate IsUpper(c: char) { 'A' <= c <= 'Z' }

  predicate IsLower(c: char) { 'a' <= c <= 'z' }

  function ToUpper(c: char): (u: char)
    ensures !IsLower(u)
    ensures IsLower(c) ==> u as int == c as int - 32
    ensures !IsLower(c) ==> u == c
  {
    if IsLower(c) then (c as int - 'a' as int + 'A' as int) as char else c
  }

  function ToLower(c: char): (l: char)
    ensures !IsUpper(l)
    ensures IsUpper(c) ==> l as int == c as int + 32
    ensures !IsUpper(c) ==> l == c
  {
    if IsUpper(c) then (c as int - 'A' as int + 'a' as int) as char else c
  }

  /** `s.lower()`. */
  function Lower(s: string): (r: string)
    ensures |r| == |s|
    ensures forall i :: 0 <= i < |s| ==>
              && !IsUpper(r[i])
              && (!IsUpper(s[i]) ==> r[i] == s[i])
              && (IsUpper(s[i]) ==> r[i] as int == s[i] as int + 32)
  {
    seq(|s|, i requires 0 <= i < |s| => ToLower(s[i]))
  }

  /** The shape `capitalize()` leaves behind: no lower-case first letter, no upper-case letter after it. */
  predicate IsCapitalized(s: string) {
    && (s != [] ==> !IsLower(s[0]))
    && (forall i :: 1 <= i < |s| ==> !IsUpper(s[i]))
  }

  /**
   * `s.capitalize()`: the same letters as `s` up to case, with the
   * first upper-cased and the rest lower-cased.
   */
  function Capitalize(s: string): (r: string)
    ensures |r| == |s|
    ensures IsCapitalized(r)
    ensures Lower(r) == Lower(s)
  {
    if s == [] then [] else [ToUpper(s[0])] + Lower(s[1..])
  }

  /**
   * The two properties of Capitalize's contract pin its result down: any
   * capitalized string with the same letters up to case is Capitalize(s).
   */
  lemma {:induction false} CapitalizeUnique(s: string, t: string)
    requires IsCapitalized(t) && Lower(t) == Lower(s)
    ensures t == Capitalize(s)
  {
    var c := Capitalize(s);
    assert |t| == |Lower(t)| == |Lower(s)| == |s| == |c|;
    forall i | 0 <= i < |t|
      ensures t[i] == c[i]
    {
      assert Lower(t)[i] == Lower(c)[i];
      assert ToLower(t[i]) == ToLower(c[i]);
    }
  }

  /**
   * A capitalized target is matched by exactly the strings that spell it
   * up to case: `"mERCHANT".capitalize() == "Merchant"`.
   */
  lemma CapitalizeMatches(s: string, t: string)
    requires IsCapitalized(t)
    ensures Capitalize(s) == t <==> Lower(s) == Lower(t)
  {
    if Lower(s) == Lower(t) {
      CapitalizeUnique(s, t);
    }
  }

  /** `capitalize()` is idempotent. */
  lemma CapitalizeIdempotent(s: string)
    ensures Capitalize(Capitalize(s)) == Capitalize(s)
  {
    CapitalizeUnique(Capitalize(s), Capitalize(s));
  }

  /** `c.strip().capitalize()`, the header normalisation of an upload. */
  function NormaliseHeader(h: string): (r: string)
    ensures IsStripped(r) && IsCapitalized(r)
    ensures Lower(r) == Lower(Strip(h))
  {
    var r := Capitalize(Strip(h));
    CaseKeepsSpaces(Strip(h));
    r
  }

  /** Changing case moves no whitespace. */
  lemma CaseKeepsSpaces(s: string)
    ensures forall i :: 0 <= i < |s| ==> (IsSpace(Capitalize(s)[i]) <==> IsSpace(s[i]))
  {
    if s != [] {
      var c := Capitalize(s);
      assert c == [ToUpper(s[0])] + Lower(s[1..]);
      forall i | 0 <= i < |s|
        ensures IsSpace(c[i]) <==> IsSpace(s[i])
      {
        CaseKeepsSpace(s[i]);
        if i > 0 {
          assert c[i] == Lower(s[1..])[i - 1] == ToLower(s[i]);
        }
      }
    }
  }

  /** A letter is never whitespace, so neither case mapping changes whether a character is. */
  lemma CaseKeepsSpace(c: char)
    ensures IsSpace(ToUpper(c)) <==> IsSpace(c)
    ensures IsSpace(ToLower(c)) <==> IsSpace(c)
  {
  }

  /** Normalising a normalised header changes nothing. */
  lemma NormaliseIdempotent(h: string)
    ensures NormaliseHeader(NormaliseHeader(h)) == NormaliseHeader(h)
  {
    var n := NormaliseHeader(h);
    StripKeepsStripped(n);
    CapitalizeIdempotent(Strip(h));
  }

  /**
   * A raw header normalises to a stripped, capitalized name exactly when,
   * once stripped, it spells that name up to case: `" merchant "` and
   * `"MERCHANT"` both become `"Merchant"`.
   */
  lemma NormaliseMatches(h: string, t: string)
    requires IsStripped(t) && IsCapitalized(t)
    ensures NormaliseHeader(h) == t <==> Lower(Strip(h)) == Lower(t)
  {
    CapitalizeMatches(Strip(h), t);
  }

  // ---------------------------------------------------------------- suffixes

  function EndsWith(s: string, suffix: string): bool {
    |suffix| <= |s| && s[|s| - |suffix|..] == suffix
  }

  // ---------------------------------------------------------------- decimal

  predicate IsDigit(c: char) { '0' <= c <= '9' }

  predicate AllDigits(s: string) {
    forall i :: 0 <= i < |s| ==> IsDigit(s[i])
  }

  function DigitChar(d: int): (c: char)
    requires 0 <= d < 10
    ensures IsDigit(c)
  {
    ('0' as int + d) as char
  }

  /** `str(n)` for a non-negative int: digits only, no leading zero. */
  function Decimal(n: nat): (s: string)
    ensures s != [] && AllDigits(s)
    ensures s[0] == '0' <==> n == 0
    decreases n
  {
    if n < 10 then [DigitChar(n)] else Decimal(n / 10) + [DigitChar(n % 10)]
  }

  /** `int(s)` for a string of digits. */
  function DigitsValue(s: string): nat
    requires AllDigits(s)
  {
    if s == [] then 0 else DigitsValue(s[..|s| - 1]) * 10 + (s[|s| - 1] as int - '0' as int)
  }

  /** `int(str(n)) == n`. */
  lemma {:induction false} DecimalRoundTrip(n: nat)
    ensures DigitsValue(Decimal(n)) == n
    decreases n
  {
    if n >= 10 {
      DecimalRoundTrip(n / 10);
      var s := Decimal(n);
      assert s[..|s| - 1] == Decimal(n / 10);
    }
  }

  /** `str()` is one-to-one on non-negative ints. */
  lemma DecimalInjective(a: nat, b: nat)
    ensures Decimal(a) == Decimal(b) ==> a == b
  {
    DecimalRoundTrip(a);
    DecimalRoundTrip(b);
  }

  /** Every four-digit number prints as four characters. */
  lemma DecimalWidth4(n: nat)
    ensures 1000 <= n <= 9999 ==> |Decimal(n)| == 4
  {
    if n < 1000 || n > 9999 {
      return;
    }
    var a := n / 10;
    var b := a / 10;
    var c := b / 10;
    assert 1 <= c < 10 && 10 <= b < 100 && 100 <= a < 1000;
    assert |Decimal(b)| == |Decimal(c)| + 1 == 2;
    assert |Decimal(a)| == |Decimal(b)| + 1;
  }
}
