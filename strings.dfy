/**
 * The text operations the Rust code gets from `str`: `split_once`, `rsplit_once`,
 * `split`, `join`, `lines`, `starts_with`, `ends_with`, `strip_prefix`, ASCII
 * `to_lowercase`, decimal `format!` of integers, and the byte-wise ordering of
 * `String` that `BTreeSet`/`BTreeMap` use.
 */
module Strings {
  import opened Wrappers

  /** `s.split_once(c)`: the text before the FIRST `c` and the text after it. */
  function SplitOnce(s: string, c: char): (r: Option<(string, string)>)
    ensures r.None? <==> c !in s
    ensures r.Some? ==> s == r.value.0 + [c] + r.value.1 && c !in r.value.0
  {
    if s == [] then None
    else if s[0] == c then Some(([], s[1..]))
    else match SplitOnce(s[1..], c)
      case None => None
      case Some((a, b)) => Some(([s[0]] + a, b))
  }

  /** Any decomposition at a first occurrence is the one `SplitOnce` finds. */
  lemma {:induction false} SplitOnceUnique(a: string, b: string, c: char)
    requires c !in a
    ensures SplitOnce(a + [c] + b, c) == Some((a, b))
  {
    if a != [] {
      assert a[0] != c && a[0] in a;
      assert (a + [c] + b)[1..] == a[1..] + [c] + b;
      SplitOnceUnique(a[1..], b, c);
      assert [a[0]] + a[1..] == a;
    }
  }

  /** `s.rsplit_once(c)`: the text before the LAST `c` and the text after it. */
  function RSplitOnce(s: string, c: char): (r: Option<(string, string)>)
    ensures r.None? <==> c !in s
    ensures r.Some? ==> s == r.value.0 + [c] + r.value.1 && c !in r.value.1
  {
    if s == [] then None
    else if s[|s| - 1] == c then Some((s[..|s| - 1], []))
    else match RSplitOnce(s[..|s| - 1], c)
      case None => None
      case Some((a, b)) => Some((a, b + [s[|s| - 1]]))
  }

  /** Any decomposition at a last occurrence is the one `RSplitOnce` finds. */
  lemma {:induction false} RSplitOnceUnique(a: string, b: string, c: char)
    requires c !in b
    ensures RSplitOnce(a + [c] + b, c) == Some((a, b))
  {
    var s := a + [c] + b;
    if b != [] {
      assert s[..|s| - 1] == a + [c] + b[..|b| - 1];
      assert s[|s| - 1] == b[|b| - 1];
      RSplitOnceUnique(a, b[..|b| - 1], c);
      assert b[..|b| - 1] + [b[|b| - 1]] == b;
    } else {
      assert s[..|s| - 1] == a;
    }
  }

  /** `parts.join(sep)` */
  function Join(parts: seq<string>, sep: string): string
  {
    if |parts| == 0 then []
    else if |parts| == 1 then parts[0]
    else parts[0] + sep + Join(parts[1..], sep)
  }

  /** `s.split(c)`: never empty, pieces free of `c`, and joining them with `c` gives `s` back. */
  function Split(s: string, c: char): (r: seq<string>)
    ensures |r| >= 1
    ensures forall i :: 0 <= i < |r| ==> c !in r[i]
    ensures Join(r, [c]) == s
    decreases |s|
  {
    match SplitOnce(s, c)
    case None => [s]
    case Some((a, b)) =>
      var rest := Split(b, c);
      assert ([a] + rest)[1..] == rest;
      [a] + rest
  }

  /** Splitting inverts joining when no piece holds the separator. */
  lemma {:induction false} SplitJoin(parts: seq<string>, c: char)
    requires |parts| >= 1
    requires forall i :: 0 <= i < |parts| ==> c !in parts[i]
    ensures Split(Join(parts, [c]), c) == parts
  {
    if |parts| > 1 {
      SplitJoin(parts[1..], c);
      assert parts[0] + [c] + Join(parts[1..], [c]) == Join(parts, [c]);
      SplitOnceUnique(parts[0], Join(parts[1..], [c]), c);
      assert [parts[0]] + parts[1..] == parts;
    } else {
      assert Join(parts, [c]) == parts[0];
    }
  }

  predicate StartsWith(s: string, prefix: string) {
    |prefix| <= |s| && s[..|prefix|] == prefix
  }

  predicate EndsWith(s: string, suffix: string) {
    |suffix| <= |s| && s[|s| - |suffix|..] == suffix
  }

  /** `s.strip_prefix(prefix)` */
  function StripPrefix(s: string, prefix: string): (r: Option<string>)
    ensures r.Some? <==> StartsWith(s, prefix)
    ensures r.Some? ==> prefix + r.value == s
  {
    if StartsWith(s, prefix) then
      assert s == s[..|prefix|] + s[|prefix|..];
      Some(s[|prefix|..])
    else None
  }

  /** ASCII lower-casing of one character. */
  function LowerChar(c: char): char {
    if 'A' <= c <= 'Z' then (c as int + 32) as char else c
  }

  /** `to_lowercase`, on the ASCII letters. */
  function ToLower(s: string): (r: string)
    ensures |r| == |s|
    ensures forall i :: 0 <= i < |s| ==> r[i] == LowerChar(s[i])
  {
    seq(|s|, i requires 0 <= i < |s| => LowerChar(s[i]))
  }

  lemma ToLowerIdempotent(s: string)
    ensures ToLower(ToLower(s)) == ToLower(s)
  {
  }

  /** One decimal digit. */
  function Digit(d: nat): (c: char)
    requires d < 10
    ensures '0' <= c <= '9' && c as int - '0' as int == d
  {
    (d + '0' as int) as char
  }

  /** `format!("{n}")` for a non-negative integer. */
  function NatToString(n: nat): (r: string)
    ensures |r| >= 1
    ensures forall i :: 0 <= i < |r| ==> '0' <= r[i] <= '9'
  {
    if n < 10 then [Digit(n)] else NatToString(n / 10) + [Digit(n % 10)]
  }

  /** `format!("{i}")` for any integer. */
  function IntToString(i: int): string {
    if i < 0 then "-" + NatToString(-i) else NatToString(i)
  }

  predicate AllDigits(s: string) {
    forall i :: 0 <= i < |s| ==> '0' <= s[i] <= '9'
  }

  /** Reads a decimal numeral back: the inverse of `NatToString`. */
  function ParseDigits(s: string): nat
    requires AllDigits(s)
  {
    if s == [] then 0
    else ParseDigits(s[..|s| - 1]) * 10 + (s[|s| - 1] as int - '0' as int)
  }

  lemma {:induction false} ParseNatToString(n: nat)
    ensures ParseDigits(NatToString(n)) == n
  {
    var s := NatToString(n);
    if n >= 10 {
      ParseNatToString(n / 10);
      assert s[..|s| - 1] == NatToString(n / 10);
    } else {
      assert s[..|s| - 1] == [];
    }
  }

  /** Distinct numbers print differently. */
  lemma NatToStringInjective(m: nat, n: nat)
    requires NatToString(m) == NatToString(n)
    ensures m == n
  {
    ParseNatToString(m);
    ParseNatToString(n);
  }

  /** The byte-wise (code point) ordering of strings used by `BTreeSet<String>`. */
  predicate LexLe(a: string, b: string)
  {
    a == [] || (b != [] && (a[0] < b[0] || (a[0] == b[0] && LexLe(a[1..], b[1..]))))
  }

  lemma {:induction false} LexLeTotal(a: string, b: string)
    ensures LexLe(a, b) || LexLe(b, a)
  {
    if a != [] && b != [] && a[0] == b[0] {
      LexLeTotal(a[1..], b[1..]);
    }
  }

  lemma {:induction false} LexLeAntisymmetric(a: string, b: string)
    requires LexLe(a, b) && LexLe(b, a)
    ensures a == b
  {
    if a != [] && b != [] {
      LexLeAntisymmetric(a[1..], b[1..]);
      assert a == [a[0]] + a[1..] && b == [b[0]] + b[1..];
    }
  }

  lemma {:induction false} LexLeTransitive(a: string, b: string, c: string)
    requires LexLe(a, b) && LexLe(b, c)
    ensures LexLe(a, c)
  {
    if a != [] && b != [] && c != [] && a[0] == b[0] == c[0] {
      LexLeTransitive(a[1..], b[1..], c[1..]);
    }
  }

  /** Strips one trailing carriage return, as `lines` does after a line feed. */
  function StripCr(line: string): string {
    if |line| > 0 && line[|line| - 1] == '\r' then line[..|line| - 1] else line
  }

  /**
   * `s.lines()`: split at line feeds; a line ended by a line feed loses one
   * trailing carriage return; a final empty piece (a trailing line feed, or an
   * empty text) is not a line.
   */
  function Lines(s: string): (r: seq<string>)
    ensures forall i :: 0 <= i < |r| ==> '\n' !in r[i]
  {
    if s == [] then [] else LinesOfPieces(Split(s, '\n'))
  }

  /** The lines made of the pieces between line feeds. */
  function LinesOfPieces(p: seq<string>): (r: seq<string>)
    requires |p| >= 1
    requires forall i :: 0 <= i < |p| ==> '\n' !in p[i]
    ensures forall i :: 0 <= i < |r| ==> '\n' !in r[i]
  {
    var n := |p|;
    var ended := seq(n - 1, i requires 0 <= i < n - 1 => StripCr(p[i]));
    assert forall i :: 0 <= i < n - 1 ==> '\n' !in ended[i];
    ended + (if p[n - 1] == [] then [] else [p[n - 1]])
  }

  /** A trailing line feed after a non-empty last line adds no line. */
  lemma TrailingNewlineAddsNoLine(s: string)
    requires s != [] && s[|s| - 1] != '\n' && s[|s| - 1] != '\r'
    ensures Lines(s + "\n") == Lines(s)
  {
    var p := Split(s, '\n');
    SplitSnocSeparator(s, '\n');
    LastPieceEndsLikeText(s, '\n');
    EmptyLastPieceAddsNoLine(p);
  }

  lemma EmptyLastPieceAddsNoLine(p: seq<string>)
    requires |p| >= 1
    requires forall i :: 0 <= i < |p| ==> '\n' !in p[i]
    requires p[|p| - 1] != [] && p[|p| - 1][|p[|p| - 1]| - 1] != '\r'
    ensures LinesOfPieces(p + [[]]) == LinesOfPieces(p)
  {
    var q := p + [[]];
    var n := |p|;
    assert StripCr(p[n - 1]) == p[n - 1];
    var a := seq(n, i requires 0 <= i < n => StripCr(q[i]));
    var b := seq(n - 1, i requires 0 <= i < n - 1 => StripCr(p[i]));
    assert a == b + [p[n - 1]];
  }

  /** Appending the separator appends one empty piece. */
  lemma SplitSnocSeparator(s: string, c: char)
    ensures Split(s + [c], c) == Split(s, c) + [[]]
  {
    var p := Split(s, c);
    var q := p + [[]];
    JoinSnoc(p, [], [c]);
    assert Join(q, [c]) == s + [c];
    assert forall i :: 0 <= i < |q| ==> c !in q[i];
    SplitJoin(q, c);
  }

  /** The last piece of a split is non-empty and ends like the text, unless the text ends with the separator. */
  lemma LastPieceEndsLikeText(s: string, c: char)
    requires s != [] && s[|s| - 1] != c
    ensures var p := Split(s, c); p[|p| - 1] != [] && p[|p| - 1][|p[|p| - 1]| - 1] == s[|s| - 1]
  {
    var p := Split(s, c);
    JoinLast(p, [c]);
    if |p| > 1 {
      JoinLastSep(p, [c]);
    }
  }

  /** With two or more pieces, a join ends with the separator and the last piece. */
  lemma {:induction false} JoinLastSep(parts: seq<string>, sep: string)
    requires |parts| > 1
    ensures EndsWith(Join(parts, sep), sep + parts[|parts| - 1])
  {
    if |parts| > 2 {
      JoinLastSep(parts[1..], sep);
    }
  }

  lemma {:induction false} JoinSnoc(parts: seq<string>, x: string, sep: string)
    requires |parts| >= 1
    ensures Join(parts + [x], sep) == Join(parts, sep) + sep + x
  {
    if |parts| > 1 {
      assert (parts + [x])[1..] == parts[1..] + [x];
      JoinSnoc(parts[1..], x, sep);
    }
  }

  /** A join ends with its last piece. */
  lemma {:induction false} JoinLast(parts: seq<string>, sep: string)
    requires |parts| >= 1
    ensures EndsWith(Join(parts, sep), parts[|parts| - 1])
  {
    if |parts| > 1 {
      JoinLast(parts[1..], sep);
    }
  }
}
