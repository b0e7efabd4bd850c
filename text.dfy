/**
 * The JavaScript string operations the app relies on: `String.prototype.split`
 * on one character, `trim`, `Array.prototype.join`, and the decimal rendering
 * of an integer number.
 */
module Text {

  /** The characters `String.prototype.trim` removes (white space and line terminators). */
  predicate IsSpace(c: char)
  {
    || c == ' ' || c == '\t' || c == '\n' || c == '\r'
    || c == '\U{000B}' || c == '\U{000C}' || c == '\U{00A0}' || c == '\U{1680}'
    || ('\U{2000}' <= c <= '\U{200A}') || c == '\U{2028}' || c == '\U{2029}'
    || c == '\U{202F}' || c == '\U{205F}' || c == '\U{3000}' || c == '\U{FEFF}'
  }

  /** s neither starts nor ends with white space. */
  predicate Trimmed(s: string)
  {
    s == [] || (!IsSpace(s[0]) && !IsSpace(s[|s| - 1]))
  }

  predicate Excludes(s: string, c: char)
  {
    forall i :: 0 <= i < |s| ==> s[i] != c
  }

  /** Drops leading white space; the result is a suffix of s. */
  function TrimStart(s: string): (r: string)
    ensures |r| <= |s| && r == s[|s| - |r|..]
    ensures r == [] || !IsSpace(r[0])
    ensures forall k :: 0 <= k < |s| - |r| ==> IsSpace(s[k])
  {
    if s == [] || !IsSpace(s[0]) then s else TrimStart(s[1..])
  }

  /** Drops trailing white space; the result is a prefix of s. */
  function TrimEnd(s: string): (r: string)
    ensures |r| <= |s| && r == s[..|r|]
    ensures r == [] || !IsSpace(r[|r| - 1])
    ensures forall k :: |r| <= k < |s| ==> IsSpace(s[k])
  {
    if s == [] || !IsSpace(s[|s| - 1]) then s else TrimEnd(s[..|s| - 1])
  }

  function Trim(s: string): (r: string)
  {
    TrimEnd(TrimStart(s))
  }

  /** `trim` yields a slice of its input and cuts off only white space. */
  lemma TrimSlice(s: string) returns (i: nat, j: nat)
    ensures i <= j <= |s| && Trim(s) == s[i..j]
    ensures forall k :: 0 <= k < i ==> IsSpace(s[k])
    ensures forall k :: j <= k < |s| ==> IsSpace(s[k])
  {
    var u := TrimStart(s);
    var r := TrimEnd(u);
    i, j := |s| - |u|, |s| - |u| + |r|;
    PrefixOfSuffix(s, u, r);
    forall k | j <= k < |s|
      ensures IsSpace(s[k])
    {
      assert u[k - i] == s[k];
    }
  }

  /** A prefix of a suffix of s is a slice of s. */
  lemma PrefixOfSuffix(s: string, u: string, r: string)
    requires |u| <= |s| && u == s[|s| - |u|..]
    requires |r| <= |u| && r == u[..|r|]
    ensures r == s[|s| - |u|..|s| - |u| + |r|]
  {
    var i := |s| - |u|;
    forall k | 0 <= k < |r|
      ensures r[k] == s[i + k]
    {
      assert r[k] == u[k];
    }
  }

  /** `trim` leaves no white space at either end. */
  lemma TrimIsTrimmed(s: string)
    ensures Trimmed(Trim(s))
  {
    var u := TrimStart(s);
    var r := TrimEnd(u);
    if r != [] {
      assert r[0] == u[0];
    }
  }

  /** A character absent from s is absent from `s.trim()`. */
  lemma TrimExcludes(s: string, c: char)
    requires Excludes(s, c)
    ensures Excludes(Trim(s), c)
  {
    var i, j := TrimSlice(s);
    forall k | 0 <= k < |Trim(s)| ensures Trim(s)[k] != c {
      assert Trim(s)[k] == s[i + k];
    }
  }

  lemma TrimEndOfTrimmed(s: string)
    requires s == [] || !IsSpace(s[|s| - 1])
    ensures TrimEnd(s) == s
  {
  }

  /** Trimming leaves a trimmed string alone. */
  lemma TrimOfTrimmed(s: string)
    requires Trimmed(s)
    ensures Trim(s) == s
  {
    assert TrimStart(s) == s;
    TrimEndOfTrimmed(s);
  }

  /** One leading white-space character makes no difference to `trim`. */
  lemma TrimLeadingSpace(w: char, s: string)
    requires IsSpace(w)
    ensures Trim([w] + s) == Trim(s)
  {
    assert ([w] + s)[1..] == s;
  }

  /** `s.split(c)`: the pieces of s between the occurrences of c, at least one. */
  function Split(s: string, c: char): (parts: seq<string>)
    ensures |parts| >= 1
    ensures forall k :: 0 <= k < |parts| ==> Excludes(parts[k], c)
  {
    if s == [] then [""]
    else
      var rest := Split(s[1..], c);
      if s[0] == c then [""] + rest
      else [[s[0]] + rest[0]] + rest[1..]
  }

  /** A string without the separator splits into itself. */
  lemma {:induction false} SplitExcluded(s: string, c: char)
    requires Excludes(s, c)
    ensures Split(s, c) == [s]
  {
    if s != [] {
      SplitExcluded(s[1..], c);
      assert [s[0]] + s[1..] == s;
    }
  }

  /** A separator after a separator-free prefix starts a new piece. */
  lemma {:induction false} SplitAtSeparator(a: string, c: char, b: string)
    requires Excludes(a, c)
    ensures Split(a + [c] + b, c) == [a] + Split(b, c)
  {
    var s := a + [c] + b;
    if a == [] {
      assert s[1..] == b;
    } else {
      assert s[1..] == a[1..] + [c] + b;
      SplitAtSeparator(a[1..], c, b);
      assert [a[0]] + a[1..] == a;
    }
  }

  /** A non-separator character in front joins the first piece. */
  lemma SplitConsOther(x: char, s: string, c: char)
    requires x != c
    ensures Split([x] + s, c) == [[x] + Split(s, c)[0]] + Split(s, c)[1..]
  {
    assert ([x] + s)[1..] == s;
  }

  /** `xs.join(sep)`. */
  function Join(xs: seq<string>, sep: string): (r: string)
  {
    if |xs| == 0 then ""
    else if |xs| == 1 then xs[0]
    else xs[0] + sep + Join(xs[1..], sep)
  }

  /** Every piece of [x] + xs lacks c when x and every piece of xs do. */
  lemma ExcludesCons(x: string, xs: seq<string>, c: char)
    requires Excludes(x, c)
    requires forall k :: 0 <= k < |xs| ==> Excludes(xs[k], c)
    ensures forall k :: 0 <= k < |[x] + xs| ==> Excludes(([x] + xs)[k], c)
  {
    forall k | 0 <= k < |[x] + xs| ensures Excludes(([x] + xs)[k], c) {
      if k > 0 {
        assert ([x] + xs)[k] == xs[k - 1];
      }
    }
  }

  lemma JoinCons(y: string, rest: seq<string>, sep: string)
    requires |rest| >= 1
    ensures Join([y] + rest, sep) == y + sep + Join(rest, sep)
  {
    assert ([y] + rest)[1..] == rest;
  }

  /** Joining a piece that holds the separator is joining its two halves as separate pieces. */
  lemma JoinSpread(x: string, a: string, b: string, rest: seq<string>, sep: string)
    requires |rest| >= 1
    ensures Join([x] + ([a + sep + b] + rest), sep) == Join([x] + ([a] + ([b] + rest)), sep)
  {
    var r := Join(rest, sep);
    var mid := a + sep + b;
    JoinCons(mid, rest, sep);
    JoinCons(x, [mid] + rest, sep);
    JoinCons(b, rest, sep);
    JoinCons(a, [b] + rest, sep);
    JoinCons(x, [a] + ([b] + rest), sep);
    AppendAssoc(a + sep, b, sep + r);
    AppendAssoc(a, sep, b + (sep + r));
    AppendAssoc(mid, sep, r);
    AppendAssoc(b, sep, r);
  }

  lemma AppendAssoc(p: string, q: string, w: string)
    ensures (p + q) + w == p + (q + w)
  {
  }

  /** Splitting a join on its one-character separator gives back the pieces when none holds it. */
  lemma {:induction false} SplitJoinRoundTrip(xs: seq<string>, c: char)
    requires |xs| >= 1
    requires forall k :: 0 <= k < |xs| ==> Excludes(xs[k], c)
    ensures Split(Join(xs, [c]), c) == xs
  {
    if |xs| == 1 {
      SplitExcluded(xs[0], c);
    } else {
      SplitAtSeparator(xs[0], c, Join(xs[1..], [c]));
      SplitJoinRoundTrip(xs[1..], c);
      assert [xs[0]] + xs[1..] == xs;
    }
  }

  lemma ExcludesConcat(a: string, b: string, c: char)
    ensures Excludes(a + b, c) <==> Excludes(a, c) && Excludes(b, c)
  {
    if Excludes(a, c) && Excludes(b, c) {
      forall i | 0 <= i < |a + b| ensures (a + b)[i] != c {
        if i >= |a| { assert (a + b)[i] == b[i - |a|]; }
      }
    }
    if Excludes(a + b, c) {
      forall i | 0 <= i < |a| ensures a[i] != c {
        assert (a + b)[i] == a[i];
      }
      forall i | 0 <= i < |b| ensures b[i] != c {
        assert (a + b)[|a| + i] == b[i];
      }
    }
  }

  /** A join holds a character only if a piece or the separator does. */
  lemma {:induction false} JoinExcludes(xs: seq<string>, sep: string, c: char)
    requires Excludes(sep, c)
    requires forall k :: 0 <= k < |xs| ==> Excludes(xs[k], c)
    ensures Excludes(Join(xs, sep), c)
  {
    if |xs| > 1 {
      JoinExcludes(xs[1..], sep, c);
      ExcludesConcat(xs[0], sep, c);
      ExcludesConcat(xs[0] + sep, Join(xs[1..], sep), c);
    }
  }

  /** A join starts with its first piece. */
  lemma JoinStartsWithFirst(xs: seq<string>, sep: string)
    requires |xs| >= 1
    ensures |xs[0]| <= |Join(xs, sep)| && Join(xs, sep)[..|xs[0]|] == xs[0]
  {
    if |xs| > 1 {
      assert Join(xs, sep) == xs[0] + (sep + Join(xs[1..], sep));
    }
  }

  /** Number of occurrences of c in s. */
  function Count(s: string, c: char): (n: nat)
    ensures n <= |s|
  {
    if s == [] then 0 else (if s[0] == c then 1 else 0) + Count(s[1..], c)
  }

  lemma {:induction false} CountConcat(a: string, b: string, c: char)
    ensures Count(a + b, c) == Count(a, c) + Count(b, c)
  {
    if a == [] {
      assert a + b == b;
    } else {
      assert (a + b)[1..] == a[1..] + b;
      CountConcat(a[1..], b, c);
    }
  }

  lemma {:induction false} CountExcluded(s: string, c: char)
    ensures Count(s, c) == 0 <==> Excludes(s, c)
  {
    if s != [] {
      CountExcluded(s[1..], c);
      if Excludes(s[1..], c) && s[0] != c {
        forall i | 0 <= i < |s| ensures s[i] != c {
          if i > 0 { assert s[i] == s[1..][i - 1]; }
        }
      }
    }
  }

  /** Joining puts exactly one separator between neighbours when the pieces hold none. */
  lemma {:induction false} JoinCount(xs: seq<string>, c: char)
    requires |xs| >= 1
    requires forall k :: 0 <= k < |xs| ==> Excludes(xs[k], c)
    ensures Count(Join(xs, [c]), c) == |xs| - 1
  {
    CountExcluded(xs[0], c);
    if |xs| > 1 {
      JoinCount(xs[1..], c);
      CountConcat(xs[0] + [c], Join(xs[1..], [c]), c);
      CountConcat(xs[0], [c], c);
    }
  }

  /** The last character of a join is that of its last piece. */
  lemma {:induction false} JoinEndsLikeLast(xs: seq<string>, sep: string)
    requires |xs| >= 1 && xs[|xs| - 1] != []
    ensures |Join(xs, sep)| >= 1
    ensures Join(xs, sep)[|Join(xs, sep)| - 1] == xs[|xs| - 1][|xs[|xs| - 1]| - 1]
  {
    if |xs| > 1 {
      JoinEndsLikeLast(xs[1..], sep);
    }
  }

  function DigitChar(d: nat): (c: char)
    requires d < 10
    ensures '0' <= c <= '9'
  {
    "0123456789"[d]
  }

  predicate IsDigits(s: string)
  {
    forall i :: 0 <= i < |s| ==> '0' <= s[i] <= '9'
  }

  /** Decimal digits of a natural number, most significant first. */
  function NatToString(n: nat): (s: string)
    ensures |s| >= 1 && IsDigits(s)
  {
    if n < 10 then [DigitChar(n)] else NatToString(n / 10) + [DigitChar(n % 10)]
  }

  /** Value of a string of decimal digits. */
  function DigitsValue(s: string): nat
    requires IsDigits(s)
  {
    if s == [] then 0
    else DigitsValue(s[..|s| - 1]) * 10 + ((s[|s| - 1] as int) - ('0' as int))
  }

  /** The decimal rendering reads back as the number it renders. */
  lemma {:induction false} NatToStringValue(n: nat)
    ensures DigitsValue(NatToString(n)) == n
  {
    if n >= 10 {
      NatToStringValue(n / 10);
      var s := NatToString(n);
      assert s[..|s| - 1] == NatToString(n / 10);
    }
  }

  /** `String(n)` for an integer number: an optional minus sign, then the digits. */
  function IntToString(n: int): (s: string)
    ensures |s| >= 1
    ensures forall i :: 0 <= i < |s| ==> s[i] == '-' || '0' <= s[i] <= '9'
  {
    if n < 0 then "-" + NatToString(-n) else NatToString(n)
  }
}
