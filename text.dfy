/**
 * The JavaScript string operations the core relies on, over seq<char>:
 * `includes`/`indexOf`, `startsWith`/`endsWith`, `replace` with a string
 * pattern (first occurrence), `replace` with a global literal pattern,
 * `split` on one character, `join`, and ASCII lower-casing.
 */
module Text {
  import opened Wrappers

  /** `p` occurs in `s` starting at index `j`. */
  predicate OccursAt(s: string, p: string, j: nat) {
    j <= |s| && p <= s[j..]
  }

  /** `s.indexOf(p)`: the first index at which `p` occurs, if any. */
  function IndexOf(s: string, p: string): (r: Option<nat>)
    ensures r.Some? ==> r.value + |p| <= |s| && s[r.value..r.value + |p|] == p
    ensures r.Some? ==> OccursAt(s, p, r.value)
    ensures r.Some? ==> forall j: nat :: j < r.value ==> !OccursAt(s, p, j)
    ensures r.None? ==> forall j: nat :: j <= |s| ==> !OccursAt(s, p, j)
    decreases |s|
  {
    if p <= s then Some(0)
    else if |s| == 0 then None
    else
      var rest := IndexOf(s[1..], p);
      assert forall j: nat :: 1 <= j <= |s| ==> (OccursAt(s, p, j) <==> OccursAt(s[1..], p, j - 1)) by {
        forall j: nat | 1 <= j <= |s| ensures s[j..] == s[1..][j - 1..] { }
      }
      match rest
      case None => None
      case Some(i) => Some(i + 1)
  }

  /** `s.includes(p)`. */
  predicate Contains(s: string, p: string) {
    IndexOf(s, p).Some?
  }

  /** An occurrence at a known index makes `includes` true, at that index or earlier. */
  lemma ContainsAt(s: string, p: string, j: nat)
    requires OccursAt(s, p, j)
    ensures Contains(s, p) && IndexOf(s, p).value <= j
  {
  }

  /** `s` itself occurs inside `a + s + b`. */
  lemma ContainsMiddle(a: string, s: string, b: string)
    ensures Contains(a + s + b, s)
  {
    assert (a + s + b)[|a|..] == s + b;
    ContainsAt(a + s + b, s, |a|);
  }

  /** A string contained in a prefix of `s` is contained in `s`. */
  lemma ContainsPrefix(s: string, p: string, k: nat)
    requires k <= |s| && Contains(s[..k], p)
    ensures Contains(s, p)
  {
    var i := IndexOf(s[..k], p).value;
    assert s[i..][..|p|] == s[..k][i..][..|p|];
    ContainsAt(s, p, i);
  }

  /** Where `p + q` occurs, `p` occurs too. */
  lemma ContainsShorter(s: string, p: string, q: string)
    requires Contains(s, p + q)
    ensures Contains(s, p)
  {
    var i := IndexOf(s, p + q).value;
    assert s[i..][..|p|] == (p + q)[..|p|] == p;
    ContainsAt(s, p, i);
  }

  predicate StartsWith(s: string, p: string) {
    p <= s
  }

  predicate EndsWith(s: string, suffix: string) {
    |suffix| <= |s| && s[|s| - |suffix|..] == suffix
  }

  /** A string framed by `a` and `c` starts with `a` and ends with `c`. */
  lemma Framed(a: string, b: string, c: string)
    ensures StartsWith(a + b + c, a) && EndsWith(a + b + c, c)
  {
    assert (a + b + c)[..|a|] == a;
    assert (a + b + c)[|a + b + c| - |c|..] == c;
  }

  lemma EndsWithConcat(a: string, b: string)
    ensures EndsWith(a + b, b)
  {
    assert (a + b)[|a + b| - |b|..] == b;
  }

  /** `s.replace(p, r)` with a string pattern: only the first occurrence is replaced. */
  function ReplaceFirst(s: string, p: string, r: string): string {
    match IndexOf(s, p)
    case None => s
    case Some(i) => s[..i] + r + s[i + |p|..]
  }

  /** `s.replace(/p/g, r)` for a literal, non-empty pattern: every non-overlapping occurrence, left to right. */
  function ReplaceAll(s: string, p: string, r: string): string
    requires |p| > 0
    decreases |s|
  {
    if |s| < |p| then s
    else if p <= s then r + ReplaceAll(s[|p|..], p, r)
    else [s[0]] + ReplaceAll(s[1..], p, r)
  }

  /** Where `p` does not occur, a global replace leaves the string as it is. */
  lemma {:induction false} ReplaceAllAbsent(s: string, p: string, r: string)
    requires |p| > 0 && !Contains(s, p)
    ensures ReplaceAll(s, p, r) == s
    decreases |s|
  {
    if |s| >= |p| {
      assert !OccursAt(s, p, 0);
      assert forall j: nat :: j <= |s| - 1 ==> s[1..][j..] == s[j + 1..];
      assert !Contains(s[1..], p);
      ReplaceAllAbsent(s[1..], p, r);
    }
  }

  /** `s.split(c)` for a one-character separator. */
  function Split(s: string, c: char): (parts: seq<string>)
    ensures |parts| >= 1
    ensures forall k :: 0 <= k < |parts| ==> c !in parts[k]
    decreases |s|
  {
    if c !in s then [s]
    else
      var i := FirstIndex(s, c);
      [s[..i]] + Split(s[i + 1..], c)
  }

  /** The first index of a character known to occur. */
  function FirstIndex(s: string, c: char): (i: nat)
    requires c in s
    ensures i < |s| && s[i] == c && c !in s[..i]
  {
    if s[0] == c then 0 else FirstIndex(s[1..], c) + 1
  }

  /** The first index of `c` is at most any index holding `c`. */
  lemma {:induction false} FirstIndexAtMost(s: string, c: char, k: nat)
    requires k < |s| && s[k] == c
    ensures FirstIndex(s, c) <= k
  {
    if s[0] != c {
      assert s[1..][k - 1] == c;
      FirstIndexAtMost(s[1..], c, k - 1);
    }
  }

  /** `parts.join(sep)`. */
  function Join(parts: seq<string>, sep: string): string {
    if |parts| == 0 then ""
    else if |parts| == 1 then parts[0]
    else parts[0] + sep + Join(parts[1..], sep)
  }

  /** Every part occurs in the joined string. */
  lemma {:induction false} JoinContains(parts: seq<string>, sep: string, k: nat)
    requires k < |parts|
    ensures Contains(Join(parts, sep), parts[k])
    decreases |parts|
  {
    if |parts| == 1 {
      ContainsMiddle("", parts[0], "");
      assert "" + parts[0] + "" == parts[0];
    } else if k == 0 {
      ContainsMiddle("", parts[0], sep + Join(parts[1..], sep));
      assert "" + parts[0] + (sep + Join(parts[1..], sep)) == Join(parts, sep);
    } else {
      JoinContains(parts[1..], sep, k - 1);
      assert parts[1..][k - 1] == parts[k];
      ContainsAfter(parts[0] + sep, Join(parts[1..], sep), parts[k]);
    }
  }

  /** What occurs in `b` occurs in `a + b`. */
  lemma ContainsAfter(a: string, b: string, p: string)
    requires Contains(b, p)
    ensures Contains(a + b, p)
  {
    var i := IndexOf(b, p).value;
    assert (a + b)[|a| + i..] == b[i..];
    ContainsAt(a + b, p, |a| + i);
  }

  /** What occurs in `b` occurs in `a + b + c`. */
  lemma ContainsWithin(a: string, b: string, c: string, p: string)
    requires Contains(b, p)
    ensures Contains(a + b + c, p)
  {
    assert (a + b + c)[..|a + b|] == a + b;
    ContainsAfter(a, b, p);
    ContainsPrefix(a + b + c, p, |a + b|);
  }

  /** Splitting on a character and joining with it again gives back the original string. */
  lemma {:induction false} JoinSplit(s: string, c: char)
    ensures Join(Split(s, c), [c]) == s
    decreases |s|
  {
    if c in s {
      var i := FirstIndex(s, c);
      var tail := Split(s[i + 1..], c);
      JoinSplit(s[i + 1..], c);
      var parts := [s[..i]] + tail;
      assert Split(s, c) == parts;
      assert parts[1..] == tail;
      assert Join(parts, [c]) == s[..i] + [c] + Join(tail, [c]);
      assert s == s[..i] + [c] + s[i + 1..];
    }
  }

  function LowerChar(ch: char): char {
    if 'A' <= ch <= 'Z' then (ch as int - 'A' as int + 'a' as int) as char else ch
  }

  /** `s.toLowerCase()`, restricted to the ASCII letters. */
  function Lower(s: string): (r: string)
    ensures |r| == |s|
    ensures forall k :: 0 <= k < |s| ==> r[k] == LowerChar(s[k])
  {
    if |s| == 0 then "" else [LowerChar(s[0])] + Lower(s[1..])
  }

  /** The characters matched by the regular-expression class `\s` that the model knows of. */
  predicate IsSpace(ch: char) {
    ch == ' ' || ch == '\t' || ch == '\n' || ch == '\r' || ch == '\U{000B}' || ch == '\U{000C}' || ch == '\U{00A0}'
  }

  /** Decimal rendering of an integer, as a template literal shows it. */
  function NatToString(n: nat): (r: string)
    ensures |r| >= 1
    decreases n
  {
    var d := ['0' + (n % 10) as char];
    if n < 10 then d else NatToString(n / 10) + d
  }

  function IntToString(n: int): string {
    if n < 0 then "-" + NatToString(-n) else NatToString(n)
  }

  predicate IsDigit(ch: char) {
    '0' <= ch <= '9'
  }

  /** The number of leading decimal digits of `s`. */
  function DigitRun(s: string): (n: nat)
    ensures n <= |s|
    ensures forall k :: 0 <= k < n ==> IsDigit(s[k])
    ensures n < |s| ==> !IsDigit(s[n])
  {
    if |s| == 0 || !IsDigit(s[0]) then 0 else 1 + DigitRun(s[1..])
  }

  /** The value of a string of decimal digits. */
  function DigitsValue(s: string): nat
    requires forall k :: 0 <= k < |s| ==> IsDigit(s[k])
  {
    if |s| == 0 then 0 else DigitsValue(s[..|s| - 1]) * 10 + DigitOf(s[|s| - 1])
  }

  function DigitOf(ch: char): nat
    requires IsDigit(ch)
  {
    ch as int - '0' as int
  }

  /** `s` without its leading white space. */
  function TrimStart(s: string): (r: string)
    ensures |r| <= |s| && r == s[|s| - |r|..]
    ensures |r| > 0 ==> !IsSpace(r[0])
    ensures forall i :: 0 <= i < |s| - |r| ==> IsSpace(s[i])
  {
    if |s| > 0 && IsSpace(s[0]) then TrimStart(s[1..]) else s
  }

  /**
   * `parseInt(s)` in base 10: leading white space, an optional sign, then the longest run
   * of digits; `None` stands for NaN (no digit at all).
   */
  function ParseInt(s: string): (r: Option<int>)
    ensures r.None? <==> DigitRun(Unsigned(TrimStart(s))) == 0
  {
    ParseSigned(TrimStart(s))
  }

  /** The number read from text that no longer starts with white space: a sign, then digits. */
  function ParseSigned(t: string): (r: Option<int>)
    ensures r.None? <==> DigitRun(Unsigned(t)) == 0
  {
    var rest := Unsigned(t);
    var n := DigitRun(rest);
    if n == 0 then None
    else
      var v: int := DigitsValue(rest[..n]);
      if |t| > 0 && t[0] == '-' then Some(-v) else Some(v)
  }

  /** The text after an optional leading sign. */
  function Unsigned(t: string): string {
    if |t| > 0 && (t[0] == '-' || t[0] == '+') then t[1..] else t
  }

  /** Reading back a rendered number gives the number: `parseInt(String(n)) == n`. */
  lemma ParseNatToString(n: nat)
    ensures ParseInt(NatToString(n)) == Some(n)
  {
    NatDigitsValue(n);
    ParseDigits(NatToString(n));
  }

  /** A non-empty run of digits reads back as its value. */
  lemma ParseDigits(s: string)
    requires |s| > 0 && forall k :: 0 <= k < |s| ==> IsDigit(s[k])
    ensures ParseInt(s) == Some(DigitsValue(s))
  {
    assert IsDigit(s[0]);
    DigitStartIsPlain(s);
    DigitRunAll(s);
    DigitsValueWhole(s);
  }

  /** Text that starts with a digit has no leading space and no sign to drop. */
  lemma DigitStartIsPlain(s: string)
    requires |s| > 0 && IsDigit(s[0])
    ensures Unsigned(TrimStart(s)) == s
  {
    DigitStartUntrimmed(s);
    assert Unsigned(s) == s;
  }

  lemma DigitStartUntrimmed(s: string)
    requires |s| > 0 && IsDigit(s[0])
    ensures TrimStart(s) == s
  {
  }

  lemma DigitsValueWhole(s: string)
    requires forall k :: 0 <= k < |s| ==> IsDigit(s[k])
    ensures DigitsValue(s[..|s|]) == DigitsValue(s)
  {
    assert s[..|s|] == s;
  }

  lemma {:induction false} DigitRunAll(s: string)
    requires forall k :: 0 <= k < |s| ==> IsDigit(s[k])
    ensures DigitRun(s) == |s|
  {
    if |s| > 0 {
      DigitRunAll(s[1..]);
    }
  }

  lemma {:induction false} NatDigitsValue(n: nat)
    ensures forall k :: 0 <= k < |NatToString(n)| ==> IsDigit(NatToString(n)[k])
    ensures DigitsValue(NatToString(n)) == n
    decreases n
  {
    var d := ['0' + (n % 10) as char];
    if n >= 10 {
      NatDigitsValue(n / 10);
      var s := NatToString(n);
      assert s == NatToString(n / 10) + d;
      assert s[..|s| - 1] == NatToString(n / 10);
    }
  }
  /** The digits before the first non-digit are the run `parseInt` reads. */
  lemma {:induction false} DigitRunPrefix(d: string, rest: string)
    requires forall k :: 0 <= k < |d| ==> IsDigit(d[k])
    requires |rest| == 0 || !IsDigit(rest[0])
    ensures DigitRun(d + rest) == |d|
  {
    if |d| == 0 {
      assert d + rest == rest;
    } else {
      assert (d + rest)[1..] == d[1..] + rest;
      DigitRunPrefix(d[1..], rest);
    }
  }

  /** Text after the leading digits is ignored: `parseInt("42px") == 42`. */
  lemma ParseIntTrailing(d: string, rest: string)
    requires |d| > 0 && forall k :: 0 <= k < |d| ==> IsDigit(d[k])
    requires |rest| == 0 || !IsDigit(rest[0])
    ensures ParseInt(d + rest) == Some(DigitsValue(d))
  {
    var s := d + rest;
    assert s[0] == d[0];
    DigitStartIsPlain(s);
    DigitRunPrefix(d, rest);
    assert s[..|d|] == d;
  }

  /** Leading white space is skipped: `parseInt(" 7") == parseInt("7")`. */
  lemma ParseIntPadded(ws: string, s: string)
    requires forall k :: 0 <= k < |ws| ==> IsSpace(ws[k])
    ensures ParseInt(ws + s) == ParseInt(s)
  {
    TrimStartPadded(ws, s);
    ParseIntOfTrimmed(ws + s, s);
  }

  /** `parseInt` reads only what follows the leading white space. */
  lemma ParseIntOfTrimmed(a: string, b: string)
    requires TrimStart(a) == TrimStart(b)
    ensures ParseInt(a) == ParseInt(b)
  {
  }

  lemma {:induction false} TrimStartPadded(ws: string, s: string)
    requires forall k :: 0 <= k < |ws| ==> IsSpace(ws[k])
    ensures TrimStart(ws + s) == TrimStart(s)
  {
    if |ws| == 0 {
      assert ws + s == s;
    } else {
      assert (ws + s)[0] == ws[0];
      assert (ws + s)[1..] == ws[1..] + s;
      TrimStartPadded(ws[1..], s);
    }
  }

  /** A leading `-` negates the number and a leading `+` is dropped. */
  lemma ParseIntSigned(s: string)
    requires |s| > 0 && IsDigit(s[0])
    ensures ParseInt(s).Some?
    ensures ParseInt("-" + s) == Some(-ParseInt(s).value)
    ensures ParseInt("+" + s) == ParseInt(s)
  {
    DigitStartIsPlain(s);
    assert ("-" + s)[0] == '-' && ("-" + s)[1..] == s;
    assert ("+" + s)[0] == '+' && ("+" + s)[1..] == s;
  }

  /** The rendering of `n` parses to `n`, and with a leading `-` to `-n`. */
  lemma ParseNegatedNat(n: nat)
    ensures ParseInt(NatToString(n)) == Some(n)
    ensures ParseInt("-" + NatToString(n)) == Some(-(n as int))
  {
    var t := NatToString(n);
    ParseNatToString(n);
    NatDigitsValue(n);
    assert IsDigit(t[0]);
    ParseIntSigned(t);
  }
}
