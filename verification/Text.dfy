/** Text operations on ASCII strings, with the laws the scope policy rests on. */
module Text {

  // ----- Letters -----

  function LowerChar(c: char): char {
    if 'A' <= c <= 'Z' then c - 'A' + 'a' else c
  }

  function Lower(s: string): (r: string)
    ensures |r| == |s|
  {
    seq(|s|, i requires 0 <= i < |s| => LowerChar(s[i]))
  }

  /** A character that lower-casing neither makes nor changes. */
  predicate Caseless(c: char) {
    !('A' <= c <= 'Z') && !('a' <= c <= 'z')
  }

  predicate IsSpace(c: char) {
    c == ' ' || 9 <= c as int <= 13 || 28 <= c as int <= 31
  }

  predicate IsDigit(c: char) {
    '0' <= c <= '9'
  }

  // ----- Cutting -----

  /** Position of the first c, or the length if there is none. */
  function IndexOf(s: string, c: char): (n: nat)
    ensures n <= |s| && (n < |s| ==> s[n] == c) && c !in s[..n]
    ensures n < |s| <==> c in s
  {
    if s == [] then 0
    else if s[0] == c then 0
    else
      var n := IndexOf(s[1..], c);
      assert s[..n + 1] == [s[0]] + s[1..][..n];
      n + 1
  }

  function Before(s: string, c: char): string {
    s[..IndexOf(s, c)]
  }

  function After(s: string, c: char): string {
    if IndexOf(s, c) < |s| then s[IndexOf(s, c) + 1..] else ""
  }

  function CountOf(s: string, c: char): nat {
    if s == [] then 0 else (if s[0] == c then 1 else 0) + CountOf(s[1..], c)
  }

  function StripLeft(s: string): string {
    if s != [] && IsSpace(s[0]) then StripLeft(s[1..]) else s
  }

  function StripRight(s: string): string {
    if s != [] && IsSpace(s[|s| - 1]) then StripRight(s[..|s| - 1]) else s
  }

  function Strip(s: string): string {
    StripRight(StripLeft(s))
  }

  function TrimEnd(s: string, c: char): string {
    if s != [] && s[|s| - 1] == c then TrimEnd(s[..|s| - 1], c) else s
  }

  predicate StartsWith(s: string, p: string) {
    |p| <= |s| && s[..|p|] == p
  }

  predicate EndsWith(s: string, p: string) {
    |p| <= |s| && s[|s| - |p|..] == p
  }

  /** Position of the first "://", or the length if there is none. */
  function SchemeEnd(s: string): (n: nat)
    ensures n <= |s| && (n < |s| ==> n + 3 <= |s|)
  {
    if |s| < 3 then |s|
    else if s[0] == ':' && s[1] == '/' && s[2] == '/' then 0
    else SchemeEnd(s[1..]) + 1
  }

  function AfterScheme(s: string): string {
    if SchemeEnd(s) < |s| then s[SchemeEnd(s) + 3..] else s
  }

  lemma {:induction false} SchemeEndAt(scheme: string, rest: string)
    requires ':' !in scheme
    ensures SchemeEnd(scheme + "://" + rest) == |scheme|
  {
    var s := scheme + "://" + rest;
    if scheme != "" {
      assert s[1..] == scheme[1..] + "://" + rest;
      SchemeEndAt(scheme[1..], rest);
    }
  }

  lemma AfterSchemeOf(scheme: string, rest: string)
    requires ':' !in scheme
    ensures AfterScheme(scheme + "://" + rest) == rest
  {
    SchemeEndAt(scheme, rest);
  }

  // ----- Splitting -----

  /** The pieces between the separators, empty ones included: never empty. */
  function Split(s: string, c: char): (r: seq<string>)
    ensures |r| >= 1
  {
    if c !in s then [s]
    else
      var n := IndexOf(s, c);
      [s[..n]] + Split(s[n + 1..], c)
  }

  function Join(parts: seq<string>, c: char): string
    requires |parts| >= 1
  {
    if |parts| == 1 then parts[0] else parts[0] + [c] + Join(parts[1..], c)
  }

  lemma CutAt(s: string, n: nat)
    requires n < |s|
    ensures s == s[..n] + [s[n]] + s[n + 1..]
  {
  }

  lemma SplitFirst(s: string, c: char)
    requires c in s
    ensures var n := IndexOf(s, c); Split(s, c) == [s[..n]] + Split(s[n + 1..], c) && s == s[..n] + [c] + s[n + 1..]
  {
    hide IndexOf;
    CutAt(s, IndexOf(s, c));
  }

  lemma SplitWithout(s: string, c: char)
    requires c !in s
    ensures Split(s, c) == [s]
  {
  }

  lemma JoinFirst(p: string, parts: seq<string>, c: char)
    requires |parts| >= 1
    ensures Join([p] + parts, c) == p + [c] + Join(parts, c)
  {
    assert ([p] + parts)[1..] == parts;
  }

  lemma {:induction false} SplitParts(s: string, c: char)
    ensures Join(Split(s, c), c) == s
    decreases |s|
  {
    if c in s {
      hide Split, Join;
      var n := IndexOf(s, c);
      SplitFirst(s, c);
      SplitParts(s[n + 1..], c);
      JoinFirst(s[..n], Split(s[n + 1..], c), c);
    }
  }

  lemma SplitInjective(s: string, t: string, c: char)
    ensures Split(s, c) == Split(t, c) <==> s == t
  {
    SplitParts(s, c);
    SplitParts(t, c);
  }

  lemma {:induction false} IndexOfConcat(p: string, x: string, c: char)
    ensures IndexOf(p + x, c) == if c in p then IndexOf(p, c) else |p| + IndexOf(x, c)
  {
    if p == [] {
      assert p + x == x;
    } else if p[0] != c {
      assert (p + x)[1..] == p[1..] + x;
      IndexOfConcat(p[1..], x, c);
    }
  }

  lemma CutMiddle(p: string, x: string, c: char, n: nat)
    requires n < |p|
    ensures (p + [c] + x)[..n] == p[..n] && (p + [c] + x)[n + 1..] == p[n + 1..] + [c] + x
  {
  }

  lemma CutAfter(p: string, x: string, c: char)
    ensures (p + [c] + x)[..|p|] == p && (p + [c] + x)[|p| + 1..] == x && p + [c] + x == p + ([c] + x)
  {
  }

  lemma Associative(a: seq<string>, b: seq<string>, c: seq<string>)
    ensures a + (b + c) == a + b + c
  {
  }

  lemma IndexOfSeparator(p: string, x: string, c: char)
    ensures IndexOf(p + [c] + x, c) == if c in p then IndexOf(p, c) else |p|
  {
    hide IndexOf;
    IndexOfConcat(p, [c] + x, c);
    assert p + [c] + x == p + ([c] + x);
    StartsAt(x, c);
  }

  lemma StartsAt(x: string, c: char)
    ensures IndexOf([c] + x, c) == 0
  {
  }

  lemma AroundSeparator(p: string, x: string, c: char)
    ensures var s := p + [c] + x;
            && (c !in p ==> IndexOf(s, c) == |p| && s[..|p|] == p && s[|p| + 1..] == x)
            && (c in p ==> IndexOf(s, c) == IndexOf(p, c) && s[..IndexOf(p, c)] == p[..IndexOf(p, c)]
                           && s[IndexOf(p, c) + 1..] == p[IndexOf(p, c) + 1..] + [c] + x)
  {
    hide IndexOf;
    CutAfter(p, x, c);
    IndexOfSeparator(p, x, c);
    if c in p { CutMiddle(p, x, c, IndexOf(p, c)); }
  }

  /** Splitting at a separator: the pieces of the two sides, one after the other. */
  lemma {:induction false} SplitConcat(p: string, x: string, c: char)
    ensures Split(p + [c] + x, c) == Split(p, c) + Split(x, c)
    decreases |p|
  {
    var s := p + [c] + x;
    assert s[|p|] == c;
    hide IndexOf, Split;
    AroundSeparator(p, x, c);
    SplitFirst(s, c);
    if c in p {
      SplitFirst(p, c);
      var n := IndexOf(p, c);
      var tail := p[n + 1..];
      SplitConcat(tail, x, c);
      Associative([p[..n]], Split(tail, c), Split(x, c));
    } else {
      SplitWithout(p, c);
    }
  }

  lemma {:induction false} JoinConcat(a: seq<string>, b: seq<string>, c: char)
    requires |a| >= 1 && |b| >= 1
    ensures Join(a + b, c) == Join(a, c) + [c] + Join(b, c)
  {
    if |a| == 1 {
      assert (a + b)[1..] == b;
    } else {
      assert (a + b)[1..] == a[1..] + b;
      JoinConcat(a[1..], b, c);
    }
  }

  predicate IsPrefix(a: seq<string>, b: seq<string>) {
    |a| <= |b| && b[..|a|] == a
  }

  predicate IsSuffix(a: seq<string>, b: seq<string>) {
    |a| <= |b| && b[|b| - |a|..] == a
  }

  lemma EndsWithSplit(s: string, x: string, c: char)
    requires EndsWith(s, [c] + x)
    ensures |Split(x, c)| < |Split(s, c)| && IsSuffix(Split(x, c), Split(s, c))
  {
    var p := s[..|s| - |x| - 1];
    assert s == p + [c] + x;
    SplitConcat(p, x, c);
    hide Split;
  }

  lemma SuffixJoined(a: seq<string>, b: seq<string>, c: char)
    requires 1 <= |a| < |b| && IsSuffix(a, b)
    ensures EndsWith(Join(b, c), [c] + Join(a, c))
  {
    var front := b[..|b| - |a|];
    assert b == front + a;
    JoinConcat(front, a, c);
    hide Join, IsSuffix;
    ConcatEndsWith(Join(front, c), Join(a, c), c);
  }

  lemma ConcatEndsWith(u: string, v: string, c: char)
    ensures EndsWith(u + [c] + v, [c] + v)
  {
    CutAfter(u, v, c);
  }

  /** Ending in "c then x" is having the pieces of x as a proper suffix of one's own. */
  lemma EndsWithPieces(s: string, x: string, c: char)
    ensures EndsWith(s, [c] + x) <==> |Split(x, c)| < |Split(s, c)| && IsSuffix(Split(x, c), Split(s, c))
  {
    if EndsWith(s, [c] + x) { EndsWithSplit(s, x, c); }
    hide EndsWith, IsSuffix;
    if |Split(x, c)| < |Split(s, c)| && IsSuffix(Split(x, c), Split(s, c)) {
      SplitParts(s, c);
      SplitParts(x, c);
      SuffixJoined(Split(x, c), Split(s, c), c);
    }
  }

  lemma StartsWithSplit(s: string, x: string, c: char)
    requires StartsWith(s, x + [c])
    ensures |Split(x, c)| < |Split(s, c)| && IsPrefix(Split(x, c), Split(s, c))
  {
    var p := s[|x| + 1..];
    assert s == x + [c] + p;
    SplitConcat(x, p, c);
    hide Split;
  }

  lemma PrefixJoined(a: seq<string>, b: seq<string>, c: char)
    requires 1 <= |a| < |b| && IsPrefix(a, b)
    ensures StartsWith(Join(b, c), Join(a, c) + [c])
  {
    var back := b[|a|..];
    assert b == a + back;
    JoinConcat(a, back, c);
    hide Join;
  }

  /** Starting with "x then c" is having the pieces of x as a proper prefix of one's own. */
  lemma StartsWithPieces(s: string, x: string, c: char)
    ensures StartsWith(s, x + [c]) <==> |Split(x, c)| < |Split(s, c)| && IsPrefix(Split(x, c), Split(s, c))
  {
    if StartsWith(s, x + [c]) { StartsWithSplit(s, x, c); }
    hide StartsWith, IsPrefix;
    if |Split(x, c)| < |Split(s, c)| && IsPrefix(Split(x, c), Split(s, c)) {
      SplitParts(s, c);
      SplitParts(x, c);
      PrefixJoined(Split(x, c), Split(s, c), c);
    }
  }

  // ----- Lower-casing commutes with cutting at caseless characters -----

  lemma LowerSlice(s: string, i: nat, j: nat)
    requires i <= j <= |s|
    ensures Lower(s)[i..j] == Lower(s[i..j])
  {
  }

  lemma LowerTwice(s: string)
    ensures Lower(Lower(s)) == Lower(s)
  {
  }

  lemma {:induction false} LowerIndexOf(s: string, c: char)
    requires Caseless(c)
    ensures IndexOf(Lower(s), c) == IndexOf(s, c)
  {
    if s != [] {
      assert Lower(s)[1..] == Lower(s[1..]);
      LowerIndexOf(s[1..], c);
    }
  }

  lemma {:induction false} LowerCount(s: string, c: char)
    requires Caseless(c)
    ensures CountOf(Lower(s), c) == CountOf(s, c)
  {
    if s != [] {
      assert Lower(s)[1..] == Lower(s[1..]);
      LowerCount(s[1..], c);
    }
  }

  lemma {:induction false} LowerStripLeft(s: string)
    ensures StripLeft(Lower(s)) == Lower(StripLeft(s))
  {
    if s != [] {
      assert Lower(s)[1..] == Lower(s[1..]);
      LowerStripLeft(s[1..]);
    }
  }

  lemma {:induction false} LowerStripRight(s: string)
    ensures StripRight(Lower(s)) == Lower(StripRight(s))
  {
    if s != [] {
      assert Lower(s)[..|s| - 1] == Lower(s[..|s| - 1]);
      LowerStripRight(s[..|s| - 1]);
    }
  }

  lemma LowerStrip(s: string)
    ensures Strip(Lower(s)) == Lower(Strip(s))
  {
    LowerStripLeft(s);
    LowerStripRight(StripLeft(s));
  }

  lemma {:induction false} LowerTrimEnd(s: string, c: char)
    requires Caseless(c)
    ensures TrimEnd(Lower(s), c) == Lower(TrimEnd(s, c))
  {
    if s != [] {
      assert Lower(s)[..|s| - 1] == Lower(s[..|s| - 1]);
      LowerTrimEnd(s[..|s| - 1], c);
    }
  }

  lemma {:induction false} LowerSchemeEnd(s: string)
    ensures SchemeEnd(Lower(s)) == SchemeEnd(s)
  {
    if |s| >= 3 {
      assert Lower(s)[1..] == Lower(s[1..]);
      LowerSchemeEnd(s[1..]);
    }
  }

  lemma LowerCut(s: string, n: nat)
    requires n <= |s|
    ensures Lower(s)[..n] == Lower(s[..n]) && Lower(s)[n..] == Lower(s[n..])
  {
  }

  lemma LowerBefore(s: string, c: char)
    requires Caseless(c)
    ensures Before(Lower(s), c) == Lower(Before(s, c))
  {
    hide IndexOf, Lower;
    LowerIndexOf(s, c);
    LowerCut(s, IndexOf(s, c));
  }

  lemma LowerAfter(s: string, c: char)
    requires Caseless(c)
    ensures After(Lower(s), c) == Lower(After(s, c))
  {
    hide IndexOf, Lower;
    LowerIndexOf(s, c);
    LowerCut(s, if IndexOf(s, c) < |s| then IndexOf(s, c) + 1 else |s|);
  }

  lemma LowerAfterScheme(s: string)
    ensures AfterScheme(Lower(s)) == Lower(AfterScheme(s))
  {
    LowerSchemeEnd(s);
  }
}
