/**
 * The two string-rendering helpers the translator relies on:
 * `fmt.Sprintf("%d", n)` (base-10 rendering of an integer) and
 * `strings.Join(tags, ",")`, each with the parser that inverts it.
 */
module Format {
  import opened Wrappers

  predicate IsDigit(c: char) {
    '0' <= c <= '9'
  }

  function DigitValue(c: char): nat
    requires IsDigit(c)
  {
    c as int - '0' as int
  }

  function DigitChar(d: nat): (c: char)
    requires d < 10
    ensures IsDigit(c) && DigitValue(c) == d
  {
    ('0' as int + d) as char
  }

  /** A non-empty run of decimal digits. */
  predicate IsDigits(s: string) {
    |s| > 0 && forall i :: 0 <= i < |s| ==> IsDigit(s[i])
  }

  /** Digits without padding: no leading zero unless the number is zero itself. */
  predicate IsCanonicalNat(s: string) {
    IsDigits(s) && (s[0] == '0' ==> |s| == 1)
  }

  /** What `%d` prints: an optional minus sign, then unpadded digits, never "-0". */
  predicate IsCanonicalInt(s: string) {
    || IsCanonicalNat(s)
    || (|s| > 1 && s[0] == '-' && IsCanonicalNat(s[1..]) && s[1] != '0')
  }

  /** Base-10 digits of a natural number, most significant first. */
  function NatDigits(n: nat): (s: string)
    ensures IsCanonicalNat(s)
    ensures s[0] == '0' <==> n == 0
    decreases n
  {
    if n < 10 then [DigitChar(n)] else NatDigits(n / 10) + [DigitChar(n % 10)]
  }

  /** `fmt.Sprintf("%d", n)`. */
  function FormatInt(n: int): (s: string)
    ensures IsCanonicalInt(s)
    ensures s[0] == '-' <==> n < 0
  {
    if n < 0 then "-" + NatDigits(-n) else NatDigits(n)
  }

  function ParseNat(s: string): nat
    requires IsDigits(s)
    decreases |s|
  {
    if |s| == 1 then DigitValue(s[0])
    else 10 * ParseNat(s[..|s| - 1]) + DigitValue(s[|s| - 1])
  }

  /** Reads back an optional minus sign followed by decimal digits. */
  function ParseInt(s: string): Option<int> {
    if |s| > 1 && s[0] == '-' && IsDigits(s[1..]) then Some(-(ParseNat(s[1..]) as int))
    else if IsDigits(s) then Some(ParseNat(s))
    else None
  }

  lemma {:induction false} ParseNatDigits(n: nat)
    ensures ParseNat(NatDigits(n)) == n
    decreases n
  {
    if n >= 10 {
      ParseNatDigits(n / 10);
      var s := NatDigits(n);
      assert s[..|s| - 1] == NatDigits(n / 10);
    }
  }

  /** `%d` output is read back exactly: parsing inverts rendering. */
  lemma ParseFormatInt(n: int)
    ensures ParseInt(FormatInt(n)) == Some(n)
  {
    if n < 0 {
      ParseNatDigits(-n);
      assert FormatInt(n)[1..] == NatDigits(-n);
    } else {
      ParseNatDigits(n);
    }
  }

  lemma {:induction false} ParseNatPositive(s: string)
    requires IsDigits(s) && s[0] != '0'
    ensures ParseNat(s) >= 1
    decreases |s|
  {
    if |s| > 1 {
      ParseNatPositive(s[..|s| - 1]);
    }
  }

  lemma {:induction false} NatDigitsParse(s: string)
    requires IsCanonicalNat(s)
    ensures NatDigits(ParseNat(s)) == s
    decreases |s|
  {
    if |s| > 1 {
      var init := s[..|s| - 1];
      NatDigitsParse(init);
      ParseNatPositive(init);
      var d := DigitValue(s[|s| - 1]);
      var n := ParseNat(s);
      assert n / 10 == ParseNat(init) && n % 10 == d;
      assert DigitChar(d) == s[|s| - 1];
    }
  }

  /** Every string `%d` can print is printed for exactly one number:
      rendering inverts parsing on canonical decimal strings. */
  lemma FormatParseInt(s: string)
    requires IsCanonicalInt(s)
    ensures ParseInt(s).Some? && FormatInt(ParseInt(s).value) == s
  {
    if s[0] == '-' {
      NatDigitsParse(s[1..]);
      ParseNatPositive(s[1..]);
      assert "-" + s[1..] == s;
    } else {
      NatDigitsParse(s);
    }
  }

  /** The number of commas in a string. */
  function Commas(s: string): nat
    decreases |s|
  {
    if |s| == 0 then 0 else (if s[0] == ',' then 1 else 0) + Commas(s[1..])
  }

  lemma {:induction false} CommasAppend(a: string, b: string)
    ensures Commas(a + b) == Commas(a) + Commas(b)
    decreases |a|
  {
    if |a| > 0 {
      CommasAppend(a[1..], b);
      assert (a + b)[1..] == a[1..] + b;
    } else {
      assert a + b == b;
    }
  }

  function TotalLength(xs: seq<string>): nat
    decreases |xs|
  {
    if |xs| == 0 then 0 else |xs[0]| + TotalLength(xs[1..])
  }

  function TotalCommas(xs: seq<string>): nat
    decreases |xs|
  {
    if |xs| == 0 then 0 else Commas(xs[0]) + TotalCommas(xs[1..])
  }

  /** How many separators a join of `n` elements puts in. */
  function Separators(n: nat): nat {
    if n == 0 then 0 else n - 1
  }

  /** `strings.Join(xs, ",")`: the elements in order with exactly one comma
      between neighbours, nothing escaped and nothing else added. */
  function Join(xs: seq<string>): (s: string)
    ensures |s| == TotalLength(xs) + Separators(|xs|)
    ensures Commas(s) == TotalCommas(xs) + Separators(|xs|)
    decreases |xs|
  {
    if |xs| == 0 then ""
    else if |xs| == 1 then
      assert xs[1..] == [];
      xs[0]
    else
      CommasAppend(xs[0], ",");
      CommasAppend(xs[0] + ",", Join(xs[1..]));
      xs[0] + "," + Join(xs[1..])
  }

  /** Cuts a string at every comma; always yields at least one piece. */
  function Split(s: string): (pieces: seq<string>)
    ensures |pieces| >= 1
    decreases |s|
  {
    if |s| == 0 then [""]
    else if s[0] == ',' then [""] + Split(s[1..])
    else
      var rest := Split(s[1..]);
      [[s[0]] + rest[0]] + rest[1..]
  }

  predicate CommaFree(s: string) {
    forall i :: 0 <= i < |s| ==> s[i] != ','
  }

  lemma {:induction false} SplitCommaFree(a: string)
    requires CommaFree(a)
    ensures Split(a) == [a]
    decreases |a|
  {
    if |a| > 0 {
      SplitCommaFree(a[1..]);
      assert [a[0]] + a[1..] == a;
    }
  }

  lemma {:induction false} SplitAtFirstComma(a: string, b: string)
    requires CommaFree(a)
    ensures Split(a + "," + b) == [a] + Split(b)
    decreases |a|
  {
    if |a| == 0 {
      assert a + "," + b == [','] + b;
    } else {
      SplitAtFirstComma(a[1..], b);
      assert (a + "," + b)[1..] == a[1..] + "," + b;
      assert [a[0]] + a[1..] == a;
    }
  }

  /** Joining comma-free tags with commas loses nothing when there is at least one tag. */
  lemma {:induction false} SplitJoin(xs: seq<string>)
    requires |xs| > 0
    requires forall i :: 0 <= i < |xs| ==> CommaFree(xs[i])
    ensures Split(Join(xs)) == xs
    decreases |xs|
  {
    if |xs| == 1 {
      SplitCommaFree(xs[0]);
    } else {
      SplitJoin(xs[1..]);
      SplitAtFirstComma(xs[0], Join(xs[1..]));
      assert [xs[0]] + xs[1..] == xs;
    }
  }

  /** Joining the pieces of any string puts it back together: no comma is lost or added. */
  lemma {:induction false} JoinSplit(s: string)
    ensures Join(Split(s)) == s
    decreases |s|
  {
    if |s| > 0 {
      JoinSplit(s[1..]);
      var rest := Split(s[1..]);
      if s[0] == ',' {
        assert ([""] + rest)[1..] == rest;
        assert "" + "," + s[1..] == s;
      } else if |rest| == 1 {
        assert [s[0]] + s[1..] == s;
      } else {
        var pieces := Split(s);
        assert pieces[1..] == rest[1..];
        assert [s[0]] + s[1..] == s;
      }
    }
  }
}
