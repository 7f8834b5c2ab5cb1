/** Optional values: the model's stand-in for Python's None. */
module Wrappers {
  datatype Option<+T> = None | Some(value: T) {
    function GetOr(default: T): T {
      match this
      case Some(v) => v
      case None => default
    }
  }
}

/** The few string operations the core relies on. */
module Text {

  /** ASCII lower-casing of one character (str.lower restricted to ASCII). */
  function LowerChar(c: char): char {
    if 'A' <= c <= 'Z' then (c as int - 'A' as int + 'a' as int) as char else c
  }

  function Lower(s: string): (r: string)
    ensures |r| == |s|
    ensures forall i :: 0 <= i < |s| ==> r[i] == LowerChar(s[i])
  {
    seq(|s|, i requires 0 <= i < |s| => LowerChar(s[i]))
  }

  predicate StartsWith(s: string, prefix: string) {
    |prefix| <= |s| && s[..|prefix|] == prefix
  }

  predicate EndsWith(s: string, suffix: string) {
    |suffix| <= |s| && s[|s| - |suffix|..] == suffix
  }

  /** Python's `pat in s` for strings. */
  predicate Contains(s: string, pat: string)
    decreases |s|
  {
    StartsWith(s, pat) || (|s| > 0 && Contains(s[1..], pat))
  }

  function DigitChar(d: nat): char
    requires d < 10
  {
    "0123456789"[d]
  }

  /** Decimal rendering of a natural number. */
  function NatText(n: nat): (r: string)
    ensures |r| > 0
    ensures forall i :: 0 <= i < |r| ==> '0' <= r[i] <= '9'
  {
    if n < 10 then [DigitChar(n)] else NatText(n / 10) + [DigitChar(n % 10)]
  }

  /** Rendering of a day number as it appears in a cache file name. */
  function DateText(day: int): (r: string)
    ensures '_' !in r
  {
    if day < 0 then "-" + NatText(-day) else NatText(day)
  }

  lemma SepLayout(x: string, sep: char, y: string, i: int)
    ensures (x + [sep] + y)[|x|] == sep
    ensures |x| < i < |x| + 1 + |y| ==> (x + [sep] + y)[i] == y[i - |x| - 1]
  {
  }

  /** Splitting at the last separator is unambiguous when the part after it
      does not contain the separator. */
  lemma {:induction false} JoinInjective(a: string, b: string, c: string, d: string, sep: char)
    requires sep !in b && sep !in d
    requires a + [sep] + b == c + [sep] + d
    ensures a == c && b == d
  {
    var s := a + [sep] + b;
    if |a| < |c| {
      SepLayout(a, sep, b, |c|);
      SepLayout(c, sep, d, |c|);
      assert false;
    } else if |c| < |a| {
      SepLayout(c, sep, d, |a|);
      SepLayout(a, sep, b, |a|);
      assert false;
    }
    assert a == s[..|a|] && c == (c + [sep] + d)[..|c|];
    assert b == s[|a| + 1..] && d == (c + [sep] + d)[|c| + 1..];
  }
}

/** Price series: the rows of a downloaded history, one closing price per day. */
module Prices {
  datatype Bar = Bar(day: int, close: real)

  type Series = seq<Bar>

  /** The `Close` column of a series. */
  function Closes(s: Series): (r: seq<real>)
    ensures |r| == |s|
    ensures forall i :: 0 <= i < |s| ==> r[i] == s[i].close
  {
    seq(|s|, i requires 0 <= i < |s| => s[i].close)
  }
}
