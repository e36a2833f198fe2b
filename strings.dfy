/** The string operations the server code relies on: JavaScript's
    `startsWith` and `includes`, the decimal rendering of a timestamp in a
    template string, the store's string order, and `Array.prototype.join`
    with its inverse `split`. */
module Strings {

  /** `s` begins with `prefix` (String.prototype.startsWith). */
  predicate StartsWith(s: string, prefix: string): (b: bool)
    ensures b <==> |prefix| <= |s| && forall i :: 0 <= i < |prefix| ==> s[i] == prefix[i]
  {
    |prefix| <= |s| && s[..|prefix|] == prefix
  }

  /** `part` occurs in `s` at offset `i`. */
  ghost predicate OccursAt(s: string, part: string, i: int) {
    0 <= i <= |s| - |part| && s[i..i + |part|] == part
  }

  /** Reference meaning of String.prototype.includes. */
  ghost predicate Occurs(s: string, part: string) {
    exists i :: OccursAt(s, part, i)
  }

  lemma OccursStep(s: string, part: string)
    requires |s| > 0
    ensures Occurs(s, part) <==> StartsWith(s, part) || Occurs(s[1..], part)
  {
    if StartsWith(s, part) {
      assert OccursAt(s, part, 0);
    }
    if Occurs(s[1..], part) {
      var i :| OccursAt(s[1..], part, i);
      assert s[i + 1..i + 1 + |part|] == s[1..][i..i + |part|];
      assert OccursAt(s, part, i + 1);
    }
    if Occurs(s, part) && !StartsWith(s, part) {
      var i :| OccursAt(s, part, i);
      assert i != 0;
      assert s[1..][i - 1..i - 1 + |part|] == s[i..i + |part|];
      assert OccursAt(s[1..], part, i - 1);
    }
  }

  /** String.prototype.includes, trying each offset from the left. */
  function Includes(s: string, part: string): (found: bool)
    ensures found <==> Occurs(s, part)
  {
    if |s| == 0 then
      assert Occurs(s, part) ==> part == [] by {
        if Occurs(s, part) { var i :| OccursAt(s, part, i); }
      }
      assert part == [] ==> OccursAt(s, part, 0);
      |part| == 0
    else
      OccursStep(s, part);
      StartsWith(s, part) || Includes(s[1..], part)
  }

  /** The character for a decimal digit. */
  function DigitChar(d: nat): (c: char)
    requires d < 10
    ensures '0' <= c <= '9'
  {
    ('0' as int + d) as char
  }

  /** The digit a character stands for (0 for a non-digit). */
  function DigitValue(c: char): nat {
    if '0' <= c <= '9' then c as int - '0' as int else 0
  }

  predicate IsDigits(s: string) {
    forall i :: 0 <= i < |s| ==> '0' <= s[i] <= '9'
  }

  /** Decimal notation of a non-negative integer, as `${n}` renders it. */
  function Decimal(n: nat): (s: string)
    ensures |s| >= 1 && IsDigits(s)
    ensures |s| > 1 ==> s[0] != '0'
  {
    if n < 10 then [DigitChar(n)] else Decimal(n / 10) + [DigitChar(n % 10)]
  }

  /** The value of a string of decimal digits. */
  function ParseDecimal(s: string): nat {
    if |s| == 0 then 0 else ParseDecimal(s[..|s| - 1]) * 10 + DigitValue(s[|s| - 1])
  }

  /** Decimal notation loses nothing: parsing it gives the number back. */
  lemma {:induction false} ParseDecimalOfDecimal(n: nat)
    ensures ParseDecimal(Decimal(n)) == n
  {
    var s := Decimal(n);
    if n < 10 {
      assert s[..0] == [];
    } else {
      assert s[..|s| - 1] == Decimal(n / 10);
      ParseDecimalOfDecimal(n / 10);
    }
  }

  /** Distinct numbers have distinct decimal notations. */
  lemma DecimalInjective(a: nat, b: nat)
    requires Decimal(a) == Decimal(b)
    ensures a == b
  {
    ParseDecimalOfDecimal(a);
    ParseDecimalOfDecimal(b);
  }

  /** Lexicographic order on strings by code point, the store's binary
      string comparison. */
  predicate StrLe(a: string, b: string)
    decreases |a|
  {
    |a| == 0 || (|b| > 0 && (a[0] < b[0] || (a[0] == b[0] && StrLe(a[1..], b[1..]))))
  }

  lemma {:induction false} StrLeTotal(a: string, b: string)
    ensures StrLe(a, b) || StrLe(b, a)
    decreases |a|
  {
    if |a| > 0 && |b| > 0 && a[0] == b[0] {
      StrLeTotal(a[1..], b[1..]);
    }
  }

  lemma {:induction false} StrLeTrans(a: string, b: string, c: string)
    requires StrLe(a, b) && StrLe(b, c)
    ensures StrLe(a, c)
    decreases |a|
  {
    if |a| > 0 && a[0] == b[0] && b[0] == c[0] {
      StrLeTrans(a[1..], b[1..], c[1..]);
    }
  }

  /** Array.prototype.join with a one-character separator: the first part
      comes first, and the separator is the only character it adds. */
  function Join(parts: seq<string>, sep: char): (joined: string)
    ensures |parts| > 0 ==> StartsWith(joined, parts[0])
    ensures forall c :: c in joined ==> c == sep || exists i :: 0 <= i < |parts| && c in parts[i]
  {
    if |parts| == 0 then ""
    else if |parts| == 1 then parts[0]
    else parts[0] + [sep] + Join(parts[1..], sep)
  }

  /** String.prototype.split on one character: the pieces between the
      separators, one more than the separators there are. */
  function Split(s: string, sep: char): (pieces: seq<string>)
    ensures |pieces| == multiset(s)[sep] + 1
    ensures forall i :: 0 <= i < |pieces| ==> sep !in pieces[i]
  {
    if |s| == 0 then [""]
    else
      assert s == [s[0]] + s[1..];
      var rest := Split(s[1..], sep);
      if s[0] == sep then [""] + rest else [[s[0]] + rest[0]] + rest[1..]
  }

  lemma {:induction false} SplitFree(p: string, sep: char)
    requires sep !in p
    ensures Split(p, sep) == [p]
  {
    if |p| > 0 {
      SplitFree(p[1..], sep);
      assert [p[0]] + p[1..] == p;
    }
  }

  lemma {:induction false} SplitAfterPiece(p: string, r: string, sep: char)
    requires sep !in p
    ensures Split(p + [sep] + r, sep) == [p] + Split(r, sep)
  {
    var s := p + [sep] + r;
    if |p| == 0 {
      assert s[1..] == r;
    } else {
      assert s[1..] == p[1..] + [sep] + r;
      SplitAfterPiece(p[1..], r, sep);
      assert [p[0]] + p[1..] == p;
    }
  }

  /** Splitting undoes joining, as long as there is at least one part and no
      part contains the separator. */
  lemma {:induction false} SplitJoin(parts: seq<string>, sep: char)
    requires |parts| >= 1
    requires forall i :: 0 <= i < |parts| ==> sep !in parts[i]
    ensures Split(Join(parts, sep), sep) == parts
  {
    if |parts| == 1 {
      SplitFree(parts[0], sep);
    } else {
      SplitJoin(parts[1..], sep);
      SplitAfterPiece(parts[0], Join(parts[1..], sep), sep);
      assert [parts[0]] + parts[1..] == parts;
    }
  }
}
