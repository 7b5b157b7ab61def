/**
 * The string operations that the SQL service's templates are built from:
 * JavaScript's `Array.prototype.join`, `String.prototype.split` on a
 * one-character separator, the decimal text of an integer as produced by a
 * template literal, and the quote stripping of the CONTAINS operator.
 */
module Text {

  /** `parts.join(sep)`: the parts with `sep` between neighbours; `[].join(sep)` is "". */
  function Join(parts: seq<string>, sep: string): (r: string)
    ensures |parts| == 0 ==> r == ""
    ensures |parts| == 1 ==> r == parts[0]
  {
    if |parts| == 0 then ""
    else if |parts| == 1 then parts[0]
    else parts[0] + sep + Join(parts[1..], sep)
  }

  /** Applies `f` to every element, in order (`xs.map(f)`). */
  function Render<T>(xs: seq<T>, f: T -> string): (r: seq<string>)
    ensures |r| == |xs|
    ensures forall i :: 0 <= i < |xs| ==> r[i] == f(xs[i])
  {
    seq(|xs|, i requires 0 <= i < |xs| => f(xs[i]))
  }

  /** Pushing one more part onto a list adds the separator and the part at the end. */
  lemma {:induction false} JoinSnoc(parts: seq<string>, x: string, sep: string)
    ensures Join(parts + [x], sep) == if |parts| == 0 then x else Join(parts, sep) + sep + x
  {
    if |parts| == 0 {
      assert parts + [x] == [x];
    } else if |parts| == 1 {
      assert parts + [x] == [parts[0], x];
      assert [parts[0], x][1..] == [x];
    } else {
      assert (parts + [x])[1..] == parts[1..] + [x];
      JoinSnoc(parts[1..], x, sep);
    }
  }

  /** Joining a concatenation of two non-empty lists puts one separator between the two joins. */
  lemma {:induction false} JoinAppend(a: seq<string>, b: seq<string>, sep: string)
    requires |a| > 0 && |b| > 0
    ensures Join(a + b, sep) == Join(a, sep) + sep + Join(b, sep)
  {
    if |a| == 1 {
      assert (a + b)[1..] == b;
    } else {
      assert (a + b)[1..] == a[1..] + b;
      JoinAppend(a[1..], b, sep);
    }
  }

  /** A join of at least one non-empty part is non-empty. */
  lemma {:induction false} JoinNonEmpty(parts: seq<string>, sep: string)
    requires |parts| > 0 && parts[0] != ""
    ensures Join(parts, sep) != ""
    ensures |Join(parts, sep)| >= |parts[0]|
  {
  }

  /** Rendering a concatenation renders each half. */
  lemma RenderAppend<T>(a: seq<T>, b: seq<T>, f: T -> string)
    ensures Render(a + b, f) == Render(a, f) + Render(b, f)
  {
  }

  // ---------------------------------------------------------------------------
  // Decimal text of integers

  function DigitChar(d: nat): (c: char)
    requires d < 10
    ensures '0' <= c <= '9'
  {
    "0123456789"[d]
  }

  function DigitValue(c: char): nat
  {
    if '0' <= c <= '9' then (c as int - '0' as int) as nat else 0
  }

  predicate IsDigits(s: string)
  {
    |s| > 0 && forall i :: 0 <= i < |s| ==> '0' <= s[i] <= '9'
  }

  /** The decimal digits of `n`, most significant first, with no leading zero. */
  function NatToString(n: nat): (r: string)
    ensures IsDigits(r)
    ensures r[0] == '0' ==> n == 0
    decreases n
  {
    if n < 10 then [DigitChar(n)] else NatToString(n / 10) + [DigitChar(n % 10)]
  }

  /** The text a template literal gives an integer: `${n}`. */
  function IntToString(n: int): (r: string)
    ensures r != ""
    ensures r[0] == '-' <==> n < 0
  {
    if n < 0 then "-" + NatToString(-n) else NatToString(n)
  }

  /** Reads a string of decimal digits back. */
  function ParseDigits(s: string): nat
  {
    if |s| == 0 then 0 else ParseDigits(s[..|s| - 1]) * 10 + DigitValue(s[|s| - 1])
  }

  /** Reads a decimal integer back, with an optional leading minus sign. */
  function ParseInt(s: string): int
  {
    if |s| > 0 && s[0] == '-' then -(ParseDigits(s[1..]) as int) else ParseDigits(s) as int
  }

  lemma {:induction false} DigitRoundTrip(d: nat)
    requires d < 10
    ensures DigitValue(DigitChar(d)) == d
  {
    var digits := "0123456789";
    assert digits[d] as int == '0' as int + d;
  }

  lemma {:induction false} ParseNatToString(n: nat)
    ensures ParseDigits(NatToString(n)) == n
    decreases n
  {
    var s := NatToString(n);
    if n < 10 {
      assert s[..0] == [];
      DigitRoundTrip(n);
    } else {
      assert s[..|s| - 1] == NatToString(n / 10);
      ParseNatToString(n / 10);
      DigitRoundTrip(n % 10);
    }
  }

  /** The decimal text of an integer reads back as that integer. */
  lemma {:induction false} ParseIntToString(n: int)
    ensures ParseInt(IntToString(n)) == n
  {
    if n < 0 {
      var m: nat := -n;
      var digits := NatToString(m);
      ParseNatToString(m);
      var s := "-" + digits;
      assert IntToString(n) == s;
      assert s[1..] == digits;
      assert ParseInt(s) == -(ParseDigits(digits) as int);
    } else {
      ParseNatToString(n);
    }
  }

  /** Different integers have different decimal texts. */
  lemma IntToStringInjective(a: int, b: int)
    requires a != b
    ensures IntToString(a) != IntToString(b)
  {
    ParseIntToString(a);
    ParseIntToString(b);
  }

  // ---------------------------------------------------------------------------
  // Splitting on one separator character

  /** `s.split(c)` for a one-character separator: always at least one piece. */
  function Split(s: string, c: char): (r: seq<string>)
    ensures |r| > 0
    ensures forall i :: 0 <= i < |r| ==> c !in r[i]
  {
    if |s| == 0 then [""]
    else if s[0] == c then [""] + Split(s[1..], c)
    else
      var rest := Split(s[1..], c);
      [[s[0]] + rest[0]] + rest[1..]
  }

  /** Joining the pieces of a split with the separator restores the string. */
  lemma {:induction false} JoinSplit(s: string, c: char)
    ensures Join(Split(s, c), [c]) == s
  {
    if |s| == 0 {
    } else if s[0] == c {
      var rest := Split(s[1..], c);
      JoinSplit(s[1..], c);
      assert ([""] + rest)[1..] == rest;
      assert [c] + Join(rest, [c]) == s;
    } else {
      var rest := Split(s[1..], c);
      JoinSplit(s[1..], c);
      var r := [[s[0]] + rest[0]] + rest[1..];
      if |rest| == 1 {
        assert r == [[s[0]] + rest[0]];
      } else {
        assert r[1..] == rest[1..];
        assert Join(rest, [c]) == rest[0] + [c] + Join(rest[1..], [c]);
      }
    }
  }

  /** Splitting a join of separator-free parts gives the parts back. */
  lemma {:induction false} SplitJoin(parts: seq<string>, c: char)
    requires |parts| > 0
    requires forall i :: 0 <= i < |parts| ==> c !in parts[i]
    ensures Split(Join(parts, [c]), c) == parts
    decreases |parts|, |parts[0]|
  {
    var p := parts[0];
    if |p| == 0 {
      if |parts| == 1 {
      } else {
        var tail := parts[1..];
        assert Join(parts, [c]) == [c] + Join(tail, [c]);
        assert (Join(parts, [c]))[1..] == Join(tail, [c]);
        SplitJoin(tail, c);
        assert parts == [""] + tail;
      }
    } else {
      var parts' := [p[1..]] + parts[1..];
      forall i | 0 <= i < |parts'| ensures c !in parts'[i] {
        if i == 0 {
          assert forall x :: x in p[1..] ==> x in p;
        } else {
          assert parts'[i] == parts[i];
        }
      }
      assert parts'[1..] == parts[1..];
      var j := Join(parts, [c]);
      var j' := Join(parts', [c]);
      assert j == [p[0]] + j' by {
        if |parts| == 1 {
        } else {
          assert j == p + [c] + Join(parts[1..], [c]);
          assert j' == p[1..] + [c] + Join(parts[1..], [c]);
          assert p == [p[0]] + p[1..];
        }
      }
      assert j[0] == p[0] && p[0] != c by { assert p[0] in p; }
      assert j[1..] == j';
      SplitJoin(parts', c);
      var rest := Split(j', c);
      assert rest == parts';
      assert [[p[0]] + rest[0]] + rest[1..] == parts by {
        assert [p[0]] + p[1..] == p;
      }
    }
  }

  // ---------------------------------------------------------------------------
  // Quote stripping

  predicate IsQuote(ch: char)
  {
    ch == '"' || ch == '\''
  }

  /** `s.replace(/["']/g, "")`: every double and single quote removed. */
  function RemoveQuotes(s: string): (r: string)
    ensures |r| <= |s|
    ensures forall i :: 0 <= i < |r| ==> !IsQuote(r[i])
    ensures forall i :: 0 <= i < |r| ==> r[i] in s
  {
    if |s| == 0 then ""
    else if IsQuote(s[0]) then RemoveQuotes(s[1..])
    else [s[0]] + RemoveQuotes(s[1..])
  }

  /** A string without quotes is left as it is. */
  lemma {:induction false} RemoveQuotesNoQuotes(s: string)
    requires forall i :: 0 <= i < |s| ==> !IsQuote(s[i])
    ensures RemoveQuotes(s) == s
  {
    if |s| > 0 {
      RemoveQuotesNoQuotes(s[1..]);
    }
  }

  /** Stripping quotes twice is the same as stripping them once. */
  lemma RemoveQuotesIdempotent(s: string)
    ensures RemoveQuotes(RemoveQuotes(s)) == RemoveQuotes(s)
  {
    RemoveQuotesNoQuotes(RemoveQuotes(s));
  }

  /** Stripping keeps every character that is not a quote, in order. */
  lemma {:induction false} RemoveQuotesAppend(a: string, b: string)
    ensures RemoveQuotes(a + b) == RemoveQuotes(a) + RemoveQuotes(b)
  {
    if |a| == 0 {
      assert a + b == b;
    } else {
      assert (a + b)[1..] == a[1..] + b;
      RemoveQuotesAppend(a[1..], b);
    }
  }
}
