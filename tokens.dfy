/**
 * The text shapes shared by the deck encoders: a line is a sequence of
 * tokens joined by single blanks, a block is a sequence of lines joined by
 * line breaks, and numbers become tokens through Python's `%` conversions.
 */
module Tokens {
  import opened Wrappers

  /** A token of a deck line: non-empty, with no blank and no line break. */
  predicate IsToken(s: string) {
    |s| > 0 && ' ' !in s && '\n' !in s
  }

  /** A keyword glued to a token, such as `si` in `si1` or `erg=d` in `erg=d2`, is a token. */
  lemma Glued(key: string, t: string)
    requires ' ' !in key && '\n' !in key && IsToken(t)
    ensures IsToken(key + t)
  {
    assert forall c :: c in key + t ==> c in key || c in t;
  }

  type Token = s: string | IsToken(s) witness "0"

  /**
   * The floating-point conversions `%e`, `%15.10e` and `%6.4f`. Their decimal
   * digits are not modelled: each is an arbitrary function from a number to
   * text, of which only Tokenish is assumed where a proof needs it.
   */
  datatype Formats = Formats(e: real -> string, sci: real -> string, fixed: real -> string) {
    /**
     * Every conversion yields a token: for a finite number none of them pads,
     * since each result is at least as wide as its field width, and none
     * writes a blank. Infinities and NaN, which would be padded, are not reals.
     */
    ghost predicate Tokenish() {
      forall r: real :: IsToken(e(r)) && IsToken(sci(r)) && IsToken(fixed(r))
    }
  }

  lemma Rendered(fmt: Formats, r: real)
    requires fmt.Tokenish()
    ensures IsToken(fmt.e(r)) && IsToken(fmt.sci(r)) && IsToken(fmt.fixed(r))
  {
  }

  /** `sep.join(parts)` */
  function Join(parts: seq<string>, sep: char): string {
    if |parts| == 0 then ""
    else if |parts| == 1 then parts[0]
    else parts[0] + [sep] + Join(parts[1..], sep)
  }

  /** Applies `f` to every element, keeping the order. */
  function Map<A, B>(f: A -> B, xs: seq<A>): (r: seq<B>)
    ensures |r| == |xs|
    ensures forall k :: 0 <= k < |xs| ==> r[k] == f(xs[k])
  {
    if xs == [] then [] else Map(f, xs[..|xs| - 1]) + [f(xs[|xs| - 1])]
  }

  /** The position of the first `c` in `s`. */
  function IndexOf(s: string, c: char): (i: nat)
    requires c in s
    ensures i < |s| && s[i] == c && c !in s[..i]
  {
    if s[0] == c then 0 else 1 + IndexOf(s[1..], c)
  }

  /** `s.split(sep)`: the pieces between the separators, empty ones included. */
  function Split(s: string, sep: char): (parts: seq<string>)
    ensures |parts| > 0
    decreases |s|
  {
    if sep !in s then [s]
    else
      var i := IndexOf(s, sep);
      [s[..i]] + Split(s[i + 1..], sep)
  }

  /** Drops the last character, as `s[:-1]` does. */
  function Trim(s: string): string {
    if |s| == 0 then s else s[..|s| - 1]
  }

  lemma AppendAssoc3<T>(a: seq<T>, b: seq<T>, c: seq<T>)
    ensures a + (b + c) == a + b + c
  {
  }

  lemma AppendAssoc<T>(a: seq<T>, b: seq<T>, c: seq<T>, d: seq<T>)
    ensures a + (b + c + d) == a + b + c + d
  {
  }

  /** Trimming a text that ends with `c` and putting `c` back gives the text. */
  lemma TrimEnd(t: string, c: char)
    requires |t| > 0 && t[|t| - 1] == c
    ensures Trim(t) + [c] == t
  {
  }

  lemma {:induction false} JoinSnoc(parts: seq<string>, t: string, sep: char)
    requires |parts| > 0
    ensures Join(parts + [t], sep) == Join(parts, sep) + [sep] + t
  {
    if |parts| > 1 {
      assert (parts + [t])[1..] == parts[1..] + [t];
      JoinSnoc(parts[1..], t, sep);
    }
  }

  lemma {:induction false} JoinAppend(a: seq<string>, b: seq<string>, sep: char)
    requires |a| > 0 && |b| > 0
    ensures Join(a + b, sep) == Join(a, sep) + [sep] + Join(b, sep)
  {
    if |a| == 1 {
      assert (a + b)[1..] == b;
    } else {
      assert (a + b)[1..] == a[1..] + b;
      JoinAppend(a[1..], b, sep);
    }
  }

  /** A line that is built by writing each token followed by a blank, then trimming the last blank, is the joined tokens. */
  lemma EmitTokens(text: string, done: seq<string>, more: seq<string>)
    requires |done| > 0 && |more| > 0
    requires text == Join(done, ' ') + " "
    ensures text + (Join(more, ' ') + " ") == Join(done + more, ' ') + " "
  {
    JoinAppend(done, more, ' ');
  }

  lemma Join3(a: string, b: string, c: string, sep: char)
    ensures Join([a, b, c], sep) == a + [sep] + b + [sep] + c
  {
    assert [a, b, c][1..] == [b, c] && [b, c][1..] == [c];
    assert Join([b, c], sep) == b + [sep] + c;
    assert Join([a, b, c], sep) == a + [sep] + (b + [sep] + c);
  }

  lemma Join4(a: string, b: string, c: string, d: string, sep: char)
    ensures Join([a, b, c, d], sep) == a + [sep] + b + [sep] + c + [sep] + d
  {
    assert [a, b, c, d][1..] == [b, c, d];
    Join3(b, c, d, sep);
    assert Join([a, b, c, d], sep) == a + [sep] + (b + [sep] + c + [sep] + d);
  }

  /** Writing one more token and a blank extends the line by that token. */
  lemma EmitToken(text: string, done: seq<string>, t: string)
    requires |done| > 0
    requires text == Join(done, ' ') + " "
    ensures text + t + " " == Join(done + [t], ' ') + " "
  {
    JoinSnoc(done, t, ' ');
  }

  lemma MapSnoc<A, B>(f: A -> B, xs: seq<A>, i: nat)
    requires i < |xs|
    ensures Map(f, xs[..i + 1]) == Map(f, xs[..i]) + [f(xs[i])]
  {
    assert xs[..i + 1][..i] == xs[..i];
  }

  lemma {:induction false} JoinAvoids(parts: seq<string>, sep: char, c: char)
    requires c != sep
    requires forall k :: 0 <= k < |parts| ==> c !in parts[k]
    ensures c !in Join(parts, sep)
  {
    if |parts| > 1 {
      JoinAvoids(parts[1..], sep, c);
    }
  }

  /** A joined line ends with its last part. */
  lemma {:induction false} JoinEndsWith(parts: seq<string>, sep: char)
    requires |parts| > 0
    ensures var j := Join(parts, sep); var t := parts[|parts| - 1];
      |t| <= |j| && j[|j| - |t|..] == t
  {
    if |parts| > 1 {
      JoinEndsWith(parts[1..], sep);
    }
  }

  /** The first separator after a separator-free prefix is the one that ends it. */
  lemma {:induction false} IndexAfter(t: string, rest: string, sep: char)
    requires sep !in t
    ensures sep in t + [sep] + rest && IndexOf(t + [sep] + rest, sep) == |t|
  {
    var s := t + [sep] + rest;
    assert s[|t|] == sep;
    if |t| > 0 {
      assert s[1..] == t[1..] + [sep] + rest;
      IndexAfter(t[1..], rest, sep);
    }
  }

  /** Splitting at a first separator gives the piece before it, then the pieces of the rest. */
  lemma SplitCons(t: string, rest: string, sep: char)
    requires sep !in t
    ensures Split(t + [sep] + rest, sep) == [t] + Split(rest, sep)
  {
    var s := t + [sep] + rest;
    IndexAfter(t, rest, sep);
    assert s[..|t|] == t && s[|t| + 1..] == rest;
  }

  /** Splitting a joined sequence at its separator gives the parts back. */
  lemma {:induction false} SplitJoin(parts: seq<string>, sep: char)
    requires |parts| > 0
    requires forall k :: 0 <= k < |parts| ==> sep !in parts[k]
    ensures Split(Join(parts, sep), sep) == parts
  {
    if |parts| > 1 {
      var t, rest := parts[0], Join(parts[1..], sep);
      assert Join(parts, sep) == t + [sep] + rest;
      assert sep !in t;
      SplitCons(t, rest, sep);
      SplitJoin(parts[1..], sep);
      assert parts == [t] + parts[1..];
    }
  }

  /** Every part is a token. */
  predicate AllTokens(parts: seq<string>) {
    forall k :: 0 <= k < |parts| ==> IsToken(parts[k])
  }

  lemma AllTokensAppend(a: seq<string>, b: seq<string>)
    requires AllTokens(a) && AllTokens(b)
    ensures AllTokens(a + b)
  {
    forall k | 0 <= k < |a + b| ensures IsToken((a + b)[k]) {
      if k >= |a| {
        assert (a + b)[k] == b[k - |a|];
      }
    }
  }

  /** The first piece of a split is everything before the first separator. */
  lemma SplitFirst(t: string, rest: string, sep: char)
    requires sep !in t
    ensures Split(t + [sep] + rest, sep)[0] == t
  {
    IndexAfter(t, rest, sep);
    assert (t + [sep] + rest)[..|t|] == t;
  }

  /**
   * When `t` and a line break are `line`, a line break, `pre` and `d`, the
   * last character of `t` is the one before the last of `d`, or, when `d`
   * is a single character, the last one before `d`.
   */
  lemma LastBeforeBreak(t: string, line: string, pre: string, d: string)
    requires t + "\n" == line + "\n" + (pre + d) && |d| > 0
    ensures |t| > 0
    ensures |d| >= 2 ==> t[|t| - 1] == d[|d| - 2]
    ensures |d| == 1 ==> var h := line + "\n" + pre; t[|t| - 1] == h[|h| - 1]
  {
    var u := line + "\n" + (pre + d);
    assert u[..|t|] == t;
    assert u == (line + "\n" + pre) + d;
  }

  /** `t` ends with a line break exactly when `d` is a bare line break after one. */
  lemma EndsWithBreak(t: string, line: string, pre: string, d: string, bare: bool)
    requires t + "\n" == line + "\n" + (pre + d)
    requires bare ==> d == "\n" && var h := line + "\n" + pre; h[|h| - 1] == '\n'
    requires !bare ==> |d| >= 2 && d[|d| - 2] != '\n'
    ensures |t| > 0 && (t[|t| - 1] == '\n' <==> bare)
  {
    LastBeforeBreak(t, line, pre, d);
  }

  /** Trimming the last character of a block never reaches its first line. */
  lemma TrimmedFirstLine(line: string, rest: string, sep: char)
    requires sep !in line
    ensures Split(Trim(line + [sep] + rest), sep)[0] == line
  {
    var t := line + [sep] + rest;
    if rest == [] {
      assert Trim(t) == line;
    } else {
      assert Trim(t) == line + [sep] + rest[..|rest| - 1];
      SplitFirst(line, rest[..|rest| - 1], sep);
    }
  }

  /** A line of tokens reads back as the same tokens and has no trailing blank. */
  lemma TokensReadBack(parts: seq<string>)
    requires |parts| > 0
    requires AllTokens(parts)
    ensures Split(Join(parts, ' '), ' ') == parts
    ensures '\n' !in Join(parts, ' ')
    ensures var j := Join(parts, ' '); |j| > 0 && j[|j| - 1] != ' '
  {
    SplitJoin(parts, ' ');
    JoinAvoids(parts, ' ', '\n');
    JoinEndsWith(parts, ' ');
    var j, t := Join(parts, ' '), parts[|parts| - 1];
    assert j[|j| - 1] == t[|t| - 1];
  }

  // ---- `%d` ----

  function Digit(d: nat): char
    requires d < 10
  {
    ('0' as int + d) as char
  }

  predicate IsDigit(c: char) {
    '0' as int <= c as int <= '9' as int
  }

  /** The decimal digits of `n`, most significant first, with no leading zero. */
  function FmtNat(n: nat): (s: string)
    ensures |s| > 0 && forall k :: 0 <= k < |s| ==> IsDigit(s[k])
  {
    if n < 10 then [Digit(n)] else FmtNat(n / 10) + [Digit(n % 10)]
  }

  /** `"%d" % i` for an integer `i`. */
  function FmtInt(i: int): (s: string)
    ensures IsToken(s)
  {
    if i < 0 then "-" + FmtNat(-i) else FmtNat(i)
  }

  function ParseNat(s: string): nat
    requires |s| > 0 && forall k :: 0 <= k < |s| ==> IsDigit(s[k])
  {
    assert IsDigit(s[|s| - 1]);
    var d := s[|s| - 1] as int - '0' as int;
    if |s| == 1 then d else 10 * ParseNat(s[..|s| - 1]) + d
  }

  /** `int(s)` for an optional minus sign followed by decimal digits; None otherwise. */
  function ParseInt(s: string): Option<int> {
    if |s| > 1 && s[0] == '-' && forall k :: 1 <= k < |s| ==> IsDigit(s[k]) then Some(0 - ParseNat(s[1..]) as int)
    else if |s| > 0 && forall k :: 0 <= k < |s| ==> IsDigit(s[k]) then Some(ParseNat(s))
    else None
  }

  lemma {:induction false} ParseFmtNat(n: nat)
    ensures ParseNat(FmtNat(n)) == n
  {
    if n >= 10 {
      var s := FmtNat(n);
      assert s[..|s| - 1] == FmtNat(n / 10);
      ParseFmtNat(n / 10);
    }
  }

  /** Reading back an integer written with `%d` gives the integer. */
  lemma ParseFmtInt(i: int)
    ensures ParseInt(FmtInt(i)) == Some(i)
  {
    if i < 0 {
      var s := FmtInt(i);
      assert s[1..] == FmtNat(-i);
      ParseFmtNat(-i);
    } else {
      ParseFmtNat(i);
    }
  }

  /** `int(r)` in Python, which `%d` applies to a float: truncation toward zero. */
  function Trunc(r: real): (t: int)
    ensures 0.0 <= r ==> 0 <= t && t as real <= r < t as real + 1.0
    ensures r < 0.0 ==> t <= 0 && t as real - 1.0 < r <= t as real
  {
    if r >= 0.0 then r.Floor else -((-r).Floor)
  }
}
