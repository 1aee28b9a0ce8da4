/**
  What rendering writes into and with: the output sink (`Writer`), Go's
  `fmt` formatting of a component id with `%d`, and the "occurs in" relation
  used to state what a rendered page contains.
 */
module Html {

  /**
    The sink a component renders into. `Write` appends its argument as it
    is; `Writes` appends its argument as `encode` turns it into output. The
    Writer's definition is outside the widget files, so whether `Writes`
    escapes HTML is left open: `encode` is whatever the sink does.
   */
  class Writer {
    var out: string
    const encode: string -> string

    constructor (encode: string -> string)
      ensures out == "" && this.encode == encode
    {
      out := "";
      this.encode := encode;
    }

    method Write(s: string)
      modifies this
      ensures out == old(out) + s
    {
      out := out + s;
    }

    method Writes(s: string)
      modifies this
      ensures out == old(out) + encode(s)
    {
      out := out + encode(s);
    }
  }

  predicate IsDigit(ch: char)
  {
    '0' <= ch <= '9'
  }

  function DigitValue(ch: char): int
  {
    ch as int - '0' as int
  }

  function DigitChar(d: nat): (ch: char)
    requires d < 10
    ensures IsDigit(ch) && DigitValue(ch) == d
  {
    ('0' as int + d) as char
  }

  /** The decimal digits of `n`, most significant first, with no leading zero. */
  function Digits(n: nat): (s: string)
    ensures |s| > 0
    ensures forall i :: 0 <= i < |s| ==> IsDigit(s[i])
    ensures s[0] == '0' ==> n == 0
    decreases n
  {
    if n < 10 then [DigitChar(n)] else Digits(n / 10) + [DigitChar(n % 10)]
  }

  /** `fmt.Sprintf("%d", n)`: an optional minus sign, then the digits of |n|. */
  function FormatInt(n: int): (s: string)
    ensures |s| > 0
    ensures s[0] == '-' <==> n < 0
    ensures IsDigit(s[0]) <==> n >= 0
    ensures forall i :: 0 < i < |s| ==> IsDigit(s[i])
  {
    if n < 0 then "-" + Digits(-n) else Digits(n)
  }

  /** The number a string of decimal digits denotes. */
  function DigitsValue(s: string): int
  {
    if s == [] then 0 else DigitsValue(s[..|s| - 1]) * 10 + DigitValue(s[|s| - 1])
  }

  /** Reads back what `FormatInt` writes. */
  function ParseInt(s: string): int
  {
    if |s| > 0 && s[0] == '-' then -DigitsValue(s[1..]) else DigitsValue(s)
  }

  lemma {:induction false} DigitsRoundTrip(n: nat)
    ensures DigitsValue(Digits(n)) == n
    decreases n
  {
    if n >= 10 {
      var s := Digits(n);
      assert s[..|s| - 1] == Digits(n / 10);
      DigitsRoundTrip(n / 10);
    }
  }

  /** The id written into the markup determines the id: `%d` loses nothing. */
  lemma FormatIntRoundTrip(n: int)
    ensures ParseInt(FormatInt(n)) == n
  {
    if n < 0 {
      assert FormatInt(n)[1..] == Digits(-n);
      DigitsRoundTrip(-n);
    } else {
      DigitsRoundTrip(n);
    }
  }

  /** Two ids are written the same way exactly when they are equal. */
  lemma FormatIntInjective(a: int, b: int)
    ensures FormatInt(a) == FormatInt(b) <==> a == b
  {
    if FormatInt(a) == FormatInt(b) {
      FormatIntRoundTrip(a);
      FormatIntRoundTrip(b);
    }
  }

  /**
    A formatted id followed by a character that is not a digit can be read
    off unambiguously: two such texts that agree were written for the same id.
   */
  lemma FormatIntDelimited(a: int, b: int, r1: string, r2: string)
    requires r1 != [] && r2 != [] && !IsDigit(r1[0]) && !IsDigit(r2[0])
    requires FormatInt(a) + r1 == FormatInt(b) + r2
    ensures a == b
  {
    var s1, s2 := FormatInt(a), FormatInt(b);
    NumberEnd(s1, r1, 1);
    NumberEnd(s2, r2, 1);
    assert s1 == (s1 + r1)[..|s1|];
    assert s2 == (s2 + r2)[..|s2|];
    FormatIntInjective(a, b);
  }

  /** The first index from `i` on that holds no digit (or the end of `u`). */
  function DigitRunEnd(u: string, i: nat): (j: nat)
    requires i <= |u|
    ensures i <= j <= |u|
    decreases |u| - i
  {
    if i == |u| || !IsDigit(u[i]) then i else DigitRunEnd(u, i + 1)
  }

  /** After its first character, a formatted id runs up to the first non-digit that follows it. */
  lemma {:induction false} NumberEnd(s: string, r: string, i: nat)
    requires |s| > 0 && forall k :: 0 < k < |s| ==> IsDigit(s[k])
    requires r != [] && !IsDigit(r[0])
    requires 1 <= i <= |s|
    ensures DigitRunEnd(s + r, i) == |s|
    decreases |s| - i
  {
    var u := s + r;
    if i == |s| {
      assert u[i] == r[0];
    } else {
      assert u[i] == s[i];
      NumberEnd(s, r, i + 1);
    }
  }

  /** `t` occurs in `s` as a contiguous piece. */
  ghost predicate Contains(s: string, t: string)
  {
    exists i :: OccursAt(s, t, i)
  }

  /** `t` occurs in `s` starting at index `i`. */
  predicate OccursAt(s: string, t: string, i: int)
  {
    0 <= i <= |s| - |t| && s[i..i + |t|] == t
  }

  lemma ContainsInfix(a: string, t: string, b: string)
    ensures Contains(a + t + b, t)
  {
    assert OccursAt(a + t + b, t, |a|);
  }

  /** What occurs in a piece of a text occurs in the text. */
  lemma ContainsWithin(a: string, s: string, b: string, t: string)
    requires Contains(s, t)
    ensures Contains(a + s + b, t)
  {
    var i :| OccursAt(s, t, i);
    var u := a + s + b;
    assert u[|a| + i..|a| + i + |t|] == s[i..i + |t|];
    assert OccursAt(u, t, |a| + i);
  }

  /** Concatenation regrouped: a piece inside a concatenation occurs in it. */
  lemma ContainsRegrouped(a: string, b: string, x: string, c: string, e: string)
    ensures Contains((a + b) + x + (c + e), b + x + c)
  {
    assert (a + b) + x + (c + e) == a + (b + x + c) + e;
    ContainsInfix(a, b + x + c, e);
  }

  /**
    `fmt.Sprintf` of a template: the literal pieces of the template with the
    (already formatted) arguments in the holes between them, in order.
   */
  function Format(pieces: seq<string>, args: seq<string>): string
    requires |pieces| == |args| + 1
    decreases |args|
  {
    if args == [] then pieces[0] else pieces[0] + args[0] + Format(pieces[1..], args[1..])
  }

  /** The output of a template starts with its first piece. */
  lemma FormatStartsWithFirstPiece(pieces: seq<string>, args: seq<string>)
    requires |pieces| == |args| + 1
    ensures Format(pieces, args) == pieces[0] + Format(pieces, args)[|pieces[0]|..]
  {
    var f := Format(pieces, args);
    if args != [] {
      var tail := args[0] + Format(pieces[1..], args[1..]);
      assert f == pieces[0] + tail;
      assert f[|pieces[0]|..] == tail;
    }
  }

  /**
    The output of a template splits at its `i`-th hole into the output of the
    pieces before it, the `i`-th argument, and the output of the rest.
   */
  lemma {:induction false} FormatSplit(pieces: seq<string>, args: seq<string>, i: nat)
    requires |pieces| == |args| + 1 && i < |args|
    ensures Format(pieces, args) ==
      Format(pieces[..i + 1], args[..i]) + args[i] + Format(pieces[i + 1..], args[i + 1..])
    decreases i
  {
    if i == 0 {
      assert pieces[..1] == [pieces[0]] && args[..0] == [];
    } else {
      FormatSplit(pieces[1..], args[1..], i - 1);
      assert pieces[1..][..i] == pieces[..i + 1][1..];
      assert args[1..][..i - 1] == args[..i][1..];
      assert pieces[1..][i..] == pieces[i + 1..];
      assert args[1..][i..] == args[i + 1..];
      var head := Format(pieces[..i + 1], args[..i]);
      assert head == pieces[0] + args[0] + Format(pieces[1..][..i], args[1..][..i - 1]);
    }
  }

  lemma ContainsTransitive(s: string, t: string, u: string)
    requires Contains(s, t) && Contains(t, u)
    ensures Contains(s, u)
  {
    var i :| OccursAt(s, t, i);
    var k :| OccursAt(t, u, k);
    forall m | 0 <= m < |u|
      ensures s[i + k + m] == u[m]
    {
      assert u[m] == t[k + m];
      assert t[k + m] == s[i..i + |t|][k + m];
    }
    assert s[i + k..i + k + |u|] == u;
    assert OccursAt(s, u, i + k);
  }

  lemma ContainsPrefix(t: string, b: string, c: string)
    ensures Contains(t + b + c, t)
  {
    assert (t + b + c)[0..|t|] == t;
    assert OccursAt(t + b + c, t, 0);
  }

  lemma ContainsSuffix(a: string, t: string)
    ensures Contains(a + t, t)
  {
    assert (a + t)[|a|..|a| + |t|] == t;
    assert OccursAt(a + t, t, |a|);
  }

  lemma ContainsSelf(s: string)
    ensures Contains(s, s)
  {
    assert s[0..|s|] == s;
    assert OccursAt(s, s, 0);
  }

  /** The output of the pieces from `i` on occurs in the output of the template. */
  lemma FormatFromContained(pieces: seq<string>, args: seq<string>, i: nat)
    requires |pieces| == |args| + 1 && i <= |args|
    ensures Contains(Format(pieces, args), Format(pieces[i..], args[i..]))
  {
    if i == 0 {
      assert pieces[0..] == pieces && args[0..] == args;
      ContainsSelf(Format(pieces, args));
    } else {
      var h := i - 1;
      FormatSplit(pieces, args, h);
      assert h + 1 == i;
      ContainsSuffix(Format(pieces[..h + 1], args[..h]) + args[h], Format(pieces[h + 1..], args[h + 1..]));
    }
  }

  /** The output of the pieces up to `j` occurs in the output of the template. */
  lemma FormatUpToContained(pieces: seq<string>, args: seq<string>, j: nat)
    requires |pieces| == |args| + 1 && j <= |args|
    ensures Contains(Format(pieces, args), Format(pieces[..j + 1], args[..j]))
  {
    if j == |args| {
      assert pieces[..j + 1] == pieces && args[..j] == args;
      ContainsSelf(Format(pieces, args));
    } else {
      FormatSplit(pieces, args, j);
      ContainsPrefix(Format(pieces[..j + 1], args[..j]), args[j], Format(pieces[j + 1..], args[j + 1..]));
    }
  }

  /**
    What the template writes from its piece `i` to its piece `j` (both
    included) occurs, as one contiguous piece, in its output.
   */
  lemma FormatWindow(pieces: seq<string>, args: seq<string>, i: nat, j: nat)
    requires |pieces| == |args| + 1 && i <= j <= |args|
    ensures Contains(Format(pieces, args), Format(pieces[i..j + 1], args[i..j]))
  {
    FormatFromContained(pieces, args, i);
    var p, a := pieces[i..], args[i..];
    FormatUpToContained(p, a, j - i);
    assert p[..j - i + 1] == pieces[i..j + 1] && a[..j - i] == args[i..j];
    ContainsTransitive(Format(pieces, args), Format(p, a), Format(pieces[i..j + 1], args[i..j]));
  }

  /** A window of one hole: the piece, the argument, the next piece. */
  lemma FormatOneHole(pieces: seq<string>, args: seq<string>)
    requires |args| == 1 && |pieces| == 2
    ensures Format(pieces, args) == pieces[0] + args[0] + pieces[1]
  {
  }

  /** A window of two holes. */
  lemma FormatTwoHoles(pieces: seq<string>, args: seq<string>)
    requires |args| == 2 && |pieces| == 3
    ensures Format(pieces, args) == pieces[0] + args[0] + pieces[1] + args[1] + pieces[2]
  {
    assert Format(pieces[1..], args[1..]) == pieces[1] + args[1] + pieces[2];
  }

  lemma ContainsMiddle(x: string, p: string, q: string, r: string, y: string)
    ensures Contains(x + p + q + r + y, p + q + r)
  {
    assert x + p + q + r + y == x + (p + q + r) + y;
    ContainsInfix(x, p + q + r, y);
  }

  /** Equal texts with a common start agree after it. */
  lemma PrefixCancel(x: string, y: string, z: string)
    requires x + y == x + z
    ensures y == z
  {
    assert y == (x + y)[|x|..];
    assert z == (x + z)[|x|..];
  }

  lemma AppendAssoc(x: string, y: string, z: string)
    ensures x + y + z == x + (y + z)
  {
  }

  lemma ContainsRegroupedTwo(a: string, b: string, x: string, c: string, y: string, e: string, f: string)
    ensures Contains((a + b) + x + c + y + (e + f), b + x + c + y + e)
  {
    assert (a + b) + x + c + y + (e + f) == a + (b + x + c + y + e) + f;
    ContainsInfix(a, b + x + c + y + e, f);
  }

  /**
    In a template whose piece `i` ends with `b` and whose piece `i + 1` starts
    with `c`, the output holds `b`, then argument `i`, then `c`.
   */
  lemma FormatHoleBetween(pieces: seq<string>, args: seq<string>, i: nat, a: string, b: string, c: string, e: string)
    requires |pieces| == |args| + 1 && i < |args|
    requires pieces[i] == a + b && pieces[i + 1] == c + e
    ensures Contains(Format(pieces, args), b + args[i] + c)
  {
    FormatWindow(pieces, args, i, i + 1);
    FormatOneHole(pieces[i..i + 2], args[i..i + 1]);
    ContainsRegrouped(a, b, args[i], c, e);
    ContainsTransitive(Format(pieces, args), Format(pieces[i..i + 2], args[i..i + 1]), b + args[i] + c);
  }

  /**
    In a template whose piece `i` ends with `b` and whose piece `i + 2` starts
    with `e`, the output holds `b`, argument `i`, piece `i + 1`, argument
    `i + 1` and then `e`.
   */
  lemma FormatTwoHolesBetween(pieces: seq<string>, args: seq<string>, i: nat, a: string, b: string, e: string, f: string)
    requires |pieces| == |args| + 1 && i + 1 < |args|
    requires pieces[i] == a + b && pieces[i + 2] == e + f
    ensures Contains(Format(pieces, args), b + args[i] + pieces[i + 1] + args[i + 1] + e)
  {
    FormatWindow(pieces, args, i, i + 2);
    FormatTwoHoles(pieces[i..i + 3], args[i..i + 2]);
    ContainsRegroupedTwo(a, b, args[i], pieces[i + 1], args[i + 1], e, f);
    ContainsTransitive(Format(pieces, args), Format(pieces[i..i + 3], args[i..i + 2]),
      b + args[i] + pieces[i + 1] + args[i + 1] + e);
  }

  /** A text in which some character of `t` never appears does not contain `t`. */
  lemma LacksChar(s: string, t: string, k: nat)
    requires k < |t| && forall i :: 0 <= i < |s| ==> s[i] != t[k]
    ensures !Contains(s, t)
  {
    forall i | 0 <= i <= |s| - |t| ensures !OccursAt(s, t, i) {
      assert s[i..i + |t|][k] == s[i + k];
    }
  }

  /**
    `a + b` does not contain `t` when neither part does and an occurrence
    cannot straddle the seam: the last character of `a` or the first of `b`
    is not a character of `t`.
   */
  lemma AvoidsAppend(a: string, b: string, t: string)
    requires !Contains(a, t) && !Contains(b, t)
    requires |a| == 0 || |b| == 0 || a[|a| - 1] !in t || b[0] !in t
    ensures !Contains(a + b, t)
  {
    forall i | 0 <= i <= |a + b| - |t| ensures !OccursAt(a + b, t, i) {
      if i + |t| <= |a| {
        assert (a + b)[i..i + |t|] == a[i..i + |t|];
        assert !OccursAt(a, t, i);
      } else if |a| <= i {
        assert (a + b)[i..i + |t|] == b[i - |a|..i - |a| + |t|];
        assert !OccursAt(b, t, i - |a|);
      } else {
        assert (a + b)[i..i + |t|][|a| - 1 - i] == a[|a| - 1];
        assert (a + b)[i..i + |t|][|a| - i] == b[0];
      }
    }
  }

  /**
    No occurrence of `t` can straddle the hole between the pieces `p` and `q`
    holding `a`: either the pieces end and start with characters not in `t`,
    or the argument is non-empty and starts and ends with such characters.
   */
  predicate HoleGuarded(p: string, a: string, q: string, t: string)
  {
    (p != [] && p[|p| - 1] !in t && q != [] && q[0] !in t) ||
    (a != [] && a[0] !in t && a[|a| - 1] !in t)
  }

  /**
    A template output does not contain `t` when no piece and no argument
    contains it and every hole is guarded.
   */
  lemma {:induction false} FormatAvoids(pieces: seq<string>, args: seq<string>, t: string)
    requires |pieces| == |args| + 1
    requires forall k :: 0 <= k < |pieces| ==> !Contains(pieces[k], t)
    requires forall k :: 0 <= k < |args| ==> !Contains(args[k], t)
    requires forall k :: 0 <= k < |args| ==> HoleGuarded(pieces[k], args[k], pieces[k + 1], t)
    ensures !Contains(Format(pieces, args), t)
    decreases |args|
  {
    if args != [] {
      var rest := Format(pieces[1..], args[1..]);
      assert forall k :: 0 <= k < |pieces[1..]| ==> pieces[1..][k] == pieces[k + 1];
      assert forall k :: 0 <= k < |args[1..]| ==> args[1..][k] == args[k + 1];
      FormatAvoids(pieces[1..], args[1..], t);
      assert HoleGuarded(pieces[0], args[0], pieces[1], t);
      FormatStartsWithFirstPiece(pieces[1..], args[1..]);
      if pieces[1] != [] {
        assert rest[0] == pieces[1][0];
      }
      AvoidsAppend(pieces[0], args[0], t);
      AvoidsAppend(pieces[0] + args[0], rest, t);
    }
  }

  /** The `%d` text of an id is made of digits and '-', so it neither contains nor borders a word without them. */
  lemma FormatIntAvoids(n: int, t: string)
    requires t != [] && forall i :: 0 <= i < |t| ==> !IsDigit(t[i]) && t[i] != '-'
    ensures !Contains(FormatInt(n), t)
    ensures FormatInt(n)[0] !in t && FormatInt(n)[|FormatInt(n)| - 1] !in t
  {
    var s := FormatInt(n);
    assert forall i :: 0 <= i < |s| ==> IsDigit(s[i]) || s[i] == '-';
    LacksChar(s, t, 0);
  }

  /** A text in which two adjacent characters of `t` never appear side by side does not contain `t`. */
  lemma LacksPair(s: string, t: string, k: nat)
    requires k + 1 < |t| && forall i :: 0 <= i < |s| - 1 ==> !(s[i] == t[k] && s[i + 1] == t[k + 1])
    ensures !Contains(s, t)
  {
    forall i | 0 <= i <= |s| - |t| ensures !OccursAt(s, t, i) {
      assert s[i..i + |t|][k] == s[i + k] && s[i..i + |t|][k + 1] == s[i + k + 1];
    }
  }
}
