/**
 * String operations of the JavaScript runtime that the backend relies on:
 * `startsWith`, `split` on one character, `join`, `replace(/\D/g, "")`,
 * decimal rendering of numbers and decimal parsing of digit strings.
 */
module Strings {

  datatype Option<T> = None | Some(value: T)

  /** `s.startsWith(prefix)` */
  predicate StartsWith(s: string, prefix: string) {
    |prefix| <= |s| && s[..|prefix|] == prefix
  }

  /** `s.indexOf(t) !== -1` */
  predicate Contains(s: string, t: string)
    decreases |s|
  {
    StartsWith(s, t) || (|s| > 0 && Contains(s[1..], t))
  }

  /** `s.split(c)` for a one-character separator: the maximal pieces between the occurrences of `c`. */
  function Split(s: string, c: char): (pieces: seq<string>)
    ensures |pieces| >= 1
    ensures forall i | 0 <= i < |pieces| :: c !in pieces[i]
    decreases |s|
  {
    if |s| == 0 then [""]
    else
      var rest := Split(s[1..], c);
      if s[0] == c then [""] + rest
      else [[s[0]] + rest[0]] + rest[1..]
  }

  /** `pieces.join(sep)` */
  function Join(pieces: seq<string>, sep: string): string
    decreases |pieces|
  {
    if |pieces| == 0 then ""
    else if |pieces| == 1 then pieces[0]
    else pieces[0] + sep + Join(pieces[1..], sep)
  }

  /** Splitting and joining again on the same separator gives back the string. */
  lemma {:induction false} JoinOfSplit(s: string, c: char)
    ensures Join(Split(s, c), [c]) == s
    decreases |s|
  {
    if |s| > 0 {
      var rest := Split(s[1..], c);
      JoinOfSplit(s[1..], c);
      if s[0] == c {
        assert Split(s, c) == [""] + rest;
        assert ([""] + rest)[1..] == rest;
      } else {
        var head := [s[0]] + rest[0];
        assert Split(s, c) == [head] + rest[1..];
        if |rest| == 1 {
          assert Join(rest, [c]) == rest[0];
        } else {
          assert Join(rest, [c]) == rest[0] + [c] + Join(rest[1..], [c]);
          assert ([head] + rest[1..])[1..] == rest[1..];
        }
      }
      assert s == [s[0]] + s[1..];
    }
  }

  /** A string without the separator is one piece. */
  lemma {:induction false} SplitWithoutSeparator(s: string, c: char)
    requires c !in s
    ensures Split(s, c) == [s]
    decreases |s|
  {
    if |s| > 0 {
      SplitWithoutSeparator(s[1..], c);
      assert s == [s[0]] + s[1..];
    }
  }

  /** Splitting a string that starts with a given character. */
  lemma SplitCons(ch: char, s: string, c: char)
    ensures Split([ch] + s, c) ==
              if ch == c then [""] + Split(s, c) else [[ch] + Split(s, c)[0]] + Split(s, c)[1..]
  {
    assert ([ch] + s)[1..] == s;
  }

  /** Gluing a character onto the first of a list of pieces commutes with appending more pieces. */
  lemma ConsPieces(ch: char, p: seq<string>, q: seq<string>)
    requires |p| >= 1
    ensures [[ch] + (p + q)[0]] + (p + q)[1..] == ([[ch] + p[0]] + p[1..]) + q
  {
    assert (p + q)[0] == p[0];
    assert (p + q)[1..] == p[1..] + q;
  }

  /** One more character in front of the left side keeps the cut at the separator. */
  lemma SplitAtSeparatorStep(ch: char, rest: string, c: char, b: string)
    requires Split(rest + [c] + b, c) == Split(rest, c) + Split(b, c)
    ensures Split([ch] + rest + [c] + b, c) == Split([ch] + rest, c) + Split(b, c)
  {
    assert [ch] + rest + [c] + b == [ch] + (rest + [c] + b);
    SplitCons(ch, rest + [c] + b, c);
    SplitCons(ch, rest, c);
    if ch != c {
      ConsPieces(ch, Split(rest, c), Split(b, c));
    }
  }

  /** An occurrence of the separator cuts the string into the pieces of both sides. */
  lemma {:induction false} SplitAtSeparator(a: string, c: char, b: string)
    ensures Split(a + [c] + b, c) == Split(a, c) + Split(b, c)
    decreases |a|
  {
    if |a| == 0 {
      assert a + [c] + b == [c] + b;
      SplitCons(c, b, c);
    } else {
      SplitAtSeparator(a[1..], c, b);
      SplitAtSeparatorStep(a[0], a[1..], c, b);
      assert [a[0]] + a[1..] == a;
    }
  }

  /** Joining pieces without the separator and splitting again gives back the pieces. */
  lemma {:induction false} SplitOfJoin(pieces: seq<string>, c: char)
    requires |pieces| >= 1
    requires forall i | 0 <= i < |pieces| :: c !in pieces[i]
    ensures Split(Join(pieces, [c]), c) == pieces
    decreases |pieces|
  {
    if |pieces| == 1 {
      SplitWithoutSeparator(pieces[0], c);
    } else {
      SplitOfJoin(pieces[1..], c);
      SplitWithoutSeparator(pieces[0], c);
      SplitAtSeparator(pieces[0], c, Join(pieces[1..], [c]));
      assert [pieces[0]] + pieces[1..] == pieces;
    }
  }

  /** The first piece of a split is a prefix that ends the string or stops at the separator, after which the other pieces follow. */
  lemma {:induction false} SplitHead(s: string, c: char)
    ensures var p := Split(s, c)[0];
            |p| <= |s| && s[..|p|] == p &&
            (|p| == |s| ==> |Split(s, c)| == 1) &&
            (|p| < |s| ==> s[|p|] == c && Split(s, c)[1..] == Split(s[|p| + 1..], c))
    decreases |s|
  {
    if |s| > 0 && s[0] != c {
      SplitHead(s[1..], c);
      var rest := Split(s[1..], c);
      assert Split(s, c) == [[s[0]] + rest[0]] + rest[1..];
      assert s == [s[0]] + s[1..];
    }
  }

  /** A character absent from the string is absent from every piece. */
  lemma {:induction false} SplitKeepsAbsence(s: string, c: char, d: char)
    requires d !in s
    ensures forall i | 0 <= i < |Split(s, c)| :: d !in Split(s, c)[i]
    decreases |s|
  {
    if |s| > 0 {
      SplitKeepsAbsence(s[1..], c, d);
    }
  }

  /** Appending one more piece to a non-empty list of pieces. */
  lemma {:induction false} JoinSnoc(pieces: seq<string>, last: string, sep: string)
    requires |pieces| >= 1
    ensures Join(pieces + [last], sep) == Join(pieces, sep) + sep + last
    decreases |pieces|
  {
    if |pieces| > 1 {
      assert (pieces + [last])[1..] == pieces[1..] + [last];
      JoinSnoc(pieces[1..], last, sep);
    } else {
      assert (pieces + [last])[1..] == [last];
    }
  }

  predicate IsDigit(ch: char) {
    '0' <= ch <= '9'
  }

  predicate AllDigits(s: string) {
    forall i | 0 <= i < |s| :: IsDigit(s[i])
  }

  /** `s.replace(/\D/g, "")`: the decimal digits of `s`, in order. */
  function DigitsOf(s: string): (r: string)
    ensures AllDigits(r)
    ensures |r| <= |s|
    ensures AllDigits(s) ==> r == s
    ensures |s| == 1 ==> r == if IsDigit(s[0]) then s else ""
  {
    if |s| == 0 then ""
    else (if IsDigit(s[0]) then [s[0]] else "") + DigitsOf(s[1..])
  }

  /** Stripping non-digits works piece by piece: with the one-character case this fixes every result. */
  lemma {:induction false} DigitsOfConcat(a: string, b: string)
    ensures DigitsOf(a + b) == DigitsOf(a) + DigitsOf(b)
    decreases |a|
  {
    if |a| == 0 {
      assert a + b == b;
    } else {
      assert (a + b)[1..] == a[1..] + b;
      DigitsOfConcat(a[1..], b);
    }
  }

  /** ASCII `toLowerCase`. */
  function Lower(s: string): (r: string)
    ensures |r| == |s|
    ensures forall i | 0 <= i < |s| :: r[i] == (if 'A' <= s[i] <= 'Z' then (s[i] as int + 32) as char else s[i])
  {
    if |s| == 0 then ""
    else [if 'A' <= s[0] <= 'Z' then (s[0] as int + 32) as char else s[0]] + Lower(s[1..])
  }

  function DigitChar(d: nat): char
    requires d < 10
  {
    ('0' as int + d) as char
  }

  /** Decimal rendering of a number, as JavaScript's `${n}` gives it for a non-negative integer. */
  function NatToString(n: nat): (r: string)
    ensures |r| >= 1 && AllDigits(r)
    decreases n
  {
    if n < 10 then [DigitChar(n)] else NatToString(n / 10) + [DigitChar(n % 10)]
  }

  function IntToString(i: int): string {
    if i < 0 then "-" + NatToString(-i) else NatToString(i)
  }

  /** The value of a string of decimal digits. */
  function DecimalValue(s: string): nat
    requires AllDigits(s)
    decreases |s|
  {
    if |s| == 0 then 0 else DecimalValue(s[..|s| - 1]) * 10 + (s[|s| - 1] as int - '0' as int)
  }

  /** A numeric reply read as a decimal number; anything but a non-empty digit string is no number. */
  function ParseDecimal(s: string): (r: Option<nat>)
    ensures r.Some? <==> |s| > 0 && AllDigits(s)
  {
    if |s| > 0 && AllDigits(s) then Some(DecimalValue(s)) else None
  }

  /** Rendering a number and reading it back gives the number. */
  lemma {:induction false} ParseOfNatToString(n: nat)
    ensures ParseDecimal(NatToString(n)) == Some(n)
    decreases n
  {
    var s := NatToString(n);
    if n < 10 {
      assert s == [DigitChar(n)];
      assert s[..|s| - 1] == "";
      assert DecimalValue(s) == DecimalValue("") * 10 + n;
    } else {
      ParseOfNatToString(n / 10);
      assert s[..|s| - 1] == NatToString(n / 10);
      assert DecimalValue(NatToString(n / 10)) == n / 10;
      assert s[|s| - 1] as int - '0' as int == n % 10;
    }
  }
}
