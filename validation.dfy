/** The input checks every enrollment form applies: the CPF, typed with or without the usual
    punctuation, and the access tier, typed as a number and stored as "Nivel n". */
module Validation {
  import opened Wrappers

  /** `cpf.replace(".", "").replace("-", "")`. */
  function CleanCpf(typed: string): (c: string)
    ensures |c| <= |typed|
  {
    if typed == [] then []
    else
      var rest := CleanCpf(typed[1..]);
      if typed[0] == '.' || typed[0] == '-' then rest else [typed[0]] + rest
  }

  /** Cleaning keeps exactly the characters other than '.' and '-'. */
  lemma {:induction false} CleanCpfChars(typed: string)
    ensures forall ch :: ch in CleanCpf(typed) <==> ch in typed && ch != '.' && ch != '-'
  {
    if typed != [] {
      CleanCpfChars(typed[1..]);
      assert forall ch :: ch in typed <==> ch == typed[0] || ch in typed[1..];
    }
  }

  /** Cleaning works piece by piece. */
  lemma {:induction false} CleanCpfAppend(a: string, b: string)
    ensures CleanCpf(a + b) == CleanCpf(a) + CleanCpf(b)
  {
    if a != [] {
      assert (a + b)[0] == a[0] && (a + b)[1..] == a[1..] + b;
      CleanCpfAppend(a[1..], b);
    } else {
      assert a + b == b;
    }
  }

  predicate IsDigit(ch: char) {
    '0' <= ch <= '9'
  }

  /** `len(c) == 11 and c.isdigit()`. */
  predicate ValidCpf(c: string) {
    |c| == 11 && forall i :: 0 <= i < |c| ==> IsDigit(c[i])
  }

  /** The cleaned CPF, or None when the workflow rejects it. */
  function CheckCpf(typed: string): (r: Option<string>)
    ensures r.Some? <==> ValidCpf(CleanCpf(typed))
    ensures r.Some? ==> r.value == CleanCpf(typed) && ValidCpf(r.value)
  {
    var c := CleanCpf(typed);
    if ValidCpf(c) then Some(c) else None
  }

  /** Cleaning a string without punctuation gives it back unchanged. */
  lemma {:induction false} CleanCpfKeepsPlain(s: string)
    requires '.' !in s && '-' !in s
    ensures CleanCpf(s) == s
  {
    if s != [] {
      assert s[0] in s;
      assert forall ch :: ch in s[1..] ==> ch in s;
      CleanCpfKeepsPlain(s[1..]);
      assert s == [s[0]] + s[1..];
    }
  }

  /** Cleaning is idempotent, and an accepted CPF is already in its clean form. */
  lemma CleanCpfIdempotent(typed: string)
    ensures CleanCpf(CleanCpf(typed)) == CleanCpf(typed)
    ensures CheckCpf(typed).Some? ==> CheckCpf(CheckCpf(typed).value) == CheckCpf(typed)
  {
    CleanCpfChars(typed);
    CleanCpfKeepsPlain(CleanCpf(typed));
  }

  /** The usual printed spelling of an eleven-character CPF, `ddd.ddd.ddd-dd`. */
  function Punctuated(d: string): string
    requires |d| == 11
  {
    d[..3] + "." + d[3..6] + "." + d[6..9] + "-" + d[9..]
  }

  /** A valid CPF without punctuation is its own clean form. */
  lemma CleanDigits(s: string)
    requires forall i :: 0 <= i < |s| ==> IsDigit(s[i])
    ensures CleanCpf(s) == s
  {
    CleanCpfKeepsPlain(s);
  }

  /** Cleaning drops a punctuation character between two pieces. */
  lemma CleanSkips(x: string, p: char, y: string)
    requires p == '.' || p == '-'
    ensures CleanCpf(x + [p] + y) == CleanCpf(x) + CleanCpf(y)
  {
    CleanCpfAppend(x + [p], y);
    CleanCpfAppend(x, [p]);
  }

  /** The printed spelling of every valid CPF is accepted, and cleans to the CPF itself. */
  lemma PunctuatedAccepted(d: string)
    requires ValidCpf(d)
    ensures CheckCpf(Punctuated(d)) == Some(d)
  {
    var a, b, c, e := d[..3], d[3..6], d[6..9], d[9..];
    CleanDigits(a);
    CleanDigits(b);
    CleanDigits(c);
    CleanDigits(e);
    var ab := a + ['.'] + b;
    var abc := ab + ['.'] + c;
    assert Punctuated(d) == abc + ['-'] + e;
    CleanSkips(a, '.', b);
    CleanSkips(ab, '.', c);
    CleanSkips(abc, '-', e);
    assert CleanCpf(Punctuated(d)) == a + b + c + e;
    assert a + b + c + e == d;
  }

  /** The printed spelling is a different string from the CPF it spells. */
  lemma PunctuatedDiffers(d: string)
    requires |d| == 11
    ensures Punctuated(d) != d && !ValidCpf(Punctuated(d))
  {
    assert |Punctuated(d)| == 14;
    assert Punctuated(d)[3] == '.';
  }

  /** Ten digits, or a letter among eleven characters, are rejected. */
  lemma RejectedCpfs()
    ensures CheckCpf("1234567890") == None
    ensures CheckCpf("1234567890a") == None
  {
    CleanCpfKeepsPlain("1234567890");
    CleanCpfKeepsPlain("1234567890a");
    assert !IsDigit("1234567890a"[10]);
  }

  // ---------------------------------------------------------------------------------------------
  // Python's int() on a str, restricted to ASCII digits

  /** The characters `int()` strips around the number (the ASCII and Latin-1 ones Python counts as
      whitespace). */
  predicate IsSpace(ch: char) {
    ch == ' ' || ('\t' <= ch <= '\r') || ('\U{1C}' <= ch <= '\U{1F}') || ch == '\U{85}' || ch == '\U{A0}'
  }

  function StripLeft(s: string): (t: string)
    ensures |t| <= |s| && (t != [] ==> !IsSpace(t[0]))
  {
    if s != [] && IsSpace(s[0]) then StripLeft(s[1..]) else s
  }

  function StripRight(s: string): (t: string)
    ensures |t| <= |s| && (t != [] ==> !IsSpace(t[|t| - 1]))
    ensures t == s[..|t|]
  {
    if s != [] && IsSpace(s[|s| - 1]) then StripRight(s[..|s| - 1]) else s
  }

  /** `s.strip()`, for the characters in IsSpace. */
  function Strip(s: string): string {
    StripRight(StripLeft(s))
  }

  /** Decimal digits with single underscores between them, as a Python integer literal allows. */
  predicate DigitGroups(s: string) {
    && |s| > 0
    && IsDigit(s[0])
    && IsDigit(s[|s| - 1])
    && (forall i :: 0 <= i < |s| ==> IsDigit(s[i]) || s[i] == '_')
    && (forall i :: 0 <= i < |s| - 1 ==> s[i] == '_' ==> s[i + 1] != '_')
  }

  function DigitValue(ch: char): nat
    requires IsDigit(ch)
  {
    (ch - '0') as nat
  }

  /** The value of the digits of `s`, reading left to right and skipping underscores. */
  function DigitsValue(s: string): nat
    requires forall i :: 0 <= i < |s| ==> IsDigit(s[i]) || s[i] == '_'
  {
    if s == [] then 0
    else if s[|s| - 1] == '_' then DigitsValue(s[..|s| - 1])
    else DigitsValue(s[..|s| - 1]) * 10 + DigitValue(s[|s| - 1])
  }

  /** `int(s)`, or None where Python raises ValueError. */
  function ParseInt(s: string): Option<int> {
    var t := Strip(s);
    if |t| > 0 && (t[0] == '+' || t[0] == '-') then
      if DigitGroups(t[1..]) then
        var v: int := DigitsValue(t[1..]);
        Some(if t[0] == '-' then -v else v)
      else None
    else if DigitGroups(t) then Some(DigitsValue(t) as int)
    else None
  }

  /** The decimal numeral of `n`, as `str(n)` writes it. */
  function Decimal(n: nat): (s: string)
    ensures |s| > 0 && forall i :: 0 <= i < |s| ==> IsDigit(s[i])
  {
    if n < 10 then ['0' + n as char]
    else Decimal(n / 10) + ['0' + (n % 10) as char]
  }

  lemma {:induction false} DecimalValue(n: nat)
    ensures DigitsValue(Decimal(n)) == n
  {
    if n >= 10 {
      var s := Decimal(n);
      assert s[..|s| - 1] == Decimal(n / 10);
      DecimalValue(n / 10);
    }
  }

  /** `int(str(n)) == n` for every natural number. */
  lemma DecimalRoundTrip(n: nat)
    ensures ParseInt(Decimal(n)) == Some(n)
  {
    var s := Decimal(n);
    assert !IsSpace(s[0]) && !IsSpace(s[|s| - 1]);
    assert StripLeft(s) == s;
    assert StripRight(s) == s;
    DecimalValue(n);
  }

  /** The tier typed in a form: accepted exactly when it parses to 1, 2 or 3. */
  function ParseLevel(typed: string): (r: Option<nat>)
    ensures r.Some? <==> ParseInt(typed).Some? && ParseInt(typed).value in {1, 2, 3}
    ensures r.Some? ==> r.value as int == ParseInt(typed).value && 1 <= r.value <= 3
  {
    match ParseInt(typed)
    case Some(n) => if n in {1, 2, 3} then Some(n as nat) else None
    case None => None
  }

  /** `f"Nivel {n}"`. */
  function LevelName(n: nat): string
    requires 1 <= n <= 3
  {
    "Nivel " + Decimal(n)
  }

  /** Reads the tier number back out of a tier name. */
  function LevelNumber(name: string): Option<nat> {
    if |name| == 7 && name[..6] == "Nivel " && '1' <= name[6] <= '3' then Some(DigitValue(name[6])) else None
  }

  /** Tier names are distinct and name their number. */
  lemma LevelNameRoundTrip(n: nat)
    requires 1 <= n <= 3
    ensures LevelNumber(LevelName(n)) == Some(n)
  {
    assert LevelName(n) == "Nivel " + ['0' + n as char];
  }

  /** What the forms accept for the tier: the plain numbers, with optional sign, padding and
      leading zeros. */
  lemma ParseLevelAccepts()
    ensures ParseLevel("2") == Some(2)
    ensures ParseLevel(" 3\n") == Some(3)
    ensures ParseLevel("+01") == Some(1)
  {
    assert Strip("2") == "2";
    assert StripLeft(" 3\n") == "3\n";
    assert StripRight("3\n") == "3";
    assert DigitsValue("01") == 1 by { assert "01"[..1] == "0"; }
    assert Strip("+01") == "+01";
    assert "+01"[1..] == "01";
  }

  /** What the forms reject for the tier: numbers outside 1..3 and text that is not an integer. */
  lemma ParseLevelRejectsOutOfRange()
    ensures ParseLevel("0") == None
    ensures ParseLevel("4") == None
    ensures ParseLevel("-1") == None
  {
    assert Strip("0") == "0";
    assert Strip("4") == "4";
    assert Strip("-1") == "-1";
    assert "-1"[1..] == "1";
  }

  lemma ParseLevelRejectsNonIntegers()
    ensures ParseLevel("2.0") == None
    ensures ParseLevel("") == None
    ensures ParseLevel("1_") == None
  {
    assert Strip("2.0") == "2.0";
    assert !IsDigit("2.0"[1]);
    assert Strip("1_") == "1_";
    assert !IsDigit("1_"[1]);
  }
}
