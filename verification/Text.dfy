/** String operations of the Rust standard library that the server's parsers and sort keys use. */
module Text {

  // ----- searching and splitting -----

  /** The position of the first `c`, or the length of `s` when there is none. */
  function IndexOf(s: string, c: char): (i: nat)
    ensures i <= |s| && forall k :: 0 <= k < i ==> s[k] != c
    ensures i < |s| ==> s[i] == c
  {
    if s == [] || s[0] == c then 0 else IndexOf(s[1..], c) + 1
  }

  /** The position of the last `c`, or the length of `s` when there is none. */
  function LastIndexOf(s: string, c: char): (i: nat)
    ensures i <= |s|
    ensures i < |s| ==> s[i] == c && forall k :: i < k < |s| ==> s[k] != c
    ensures i == |s| ==> c !in s
  {
    if s == [] then 0
    else if s[|s| - 1] == c then |s| - 1
    else
      var front := s[..|s| - 1];
      var i := LastIndexOf(front, c);
      if i == |front| then |s| else i
  }

  predicate StartsWith(s: string, prefix: string) {
    prefix <= s
  }

  predicate EndsWith(s: string, suffix: string) {
    |suffix| <= |s| && s[|s| - |suffix|..] == suffix
  }

  predicate All(s: string, p: char -> bool) {
    forall i :: 0 <= i < |s| ==> p(s[i])
  }

  /** `s.split(c)`: the maximal stretches between occurrences of `c`, empty ones included. */
  function Split(s: string, c: char): (parts: seq<string>)
    ensures |parts| >= 1
    decreases |s|
  {
    var i := IndexOf(s, c);
    if i == |s| then [s] else [s[..i]] + Split(s[i + 1..], c)
  }

  function Join(parts: seq<string>, c: char): string
    requires |parts| >= 1
  {
    if |parts| == 1 then parts[0] else parts[0] + [c] + Join(parts[1..], c)
  }

  lemma {:induction false} SplitThenJoin(s: string, c: char)
    ensures Join(Split(s, c), c) == s
    ensures forall k :: 0 <= k < |Split(s, c)| ==> c !in Split(s, c)[k]
    decreases |s|
  {
    hide IndexOf;
    var i := IndexOf(s, c);
    if i < |s| {
      SplitThenJoin(s[i + 1..], c);
      assert Split(s, c)[1..] == Split(s[i + 1..], c);
      assert s == s[..i] + [c] + s[i + 1..];
    }
  }

  lemma FirstIndex(a: string, c: char, b: string)
    requires c !in a
    ensures IndexOf(a + [c] + b, c) == |a|
  {
    hide IndexOf;
    var s := a + [c] + b;
    assert s[|a|] == c && forall k | 0 <= k < |a| :: s[k] == a[k];
  }

  lemma {:induction false} LastIndex(a: string, c: char, b: string)
    requires c !in b
    ensures LastIndexOf(a + [c] + b, c) == |a|
  {
    var s := a + [c] + b;
    if b == [] {
      assert s == a + [c];
    } else {
      assert s[..|s| - 1] == a + [c] + b[..|b| - 1];
      LastIndex(a, c, b[..|b| - 1]);
    }
  }

  /** Splitting is unique: separator-free parts are recovered from their join. */
  lemma {:induction false} JoinThenSplit(parts: seq<string>, c: char)
    requires |parts| >= 1
    requires forall k :: 0 <= k < |parts| ==> c !in parts[k]
    ensures Split(Join(parts, c), c) == parts
  {
    hide IndexOf;
    var s := Join(parts, c);
    if |parts| == 1 {
      assert IndexOf(s, c) == |s|;
    } else {
      var rest := Join(parts[1..], c);
      FirstIndex(parts[0], c, rest);
      assert s[..|parts[0]|] == parts[0] && s[|parts[0]| + 1..] == rest;
      JoinThenSplit(parts[1..], c);
    }
  }

  /** Splitting distributes over a join with the separator. */
  lemma {:induction false} SplitOfJoined(a: string, c: char, b: string)
    ensures Split(a + [c] + b, c) == Split(a, c) + Split(b, c)
    decreases |a|
  {
    hide IndexOf;
    var i := IndexOf(a, c);
    var s := a + [c] + b;
    if i == |a| {
      assert a == a[..i];
      FirstIndex(a, c, b);
      assert s[..|a|] == a && s[|a| + 1..] == b;
    } else {
      var rest := a[i + 1..] + [c] + b;
      assert s == a[..i] + [c] + rest;
      FirstIndex(a[..i], c, rest);
      assert s[..i] == a[..i] && s[i + 1..] == rest;
      SplitOfJoined(a[i + 1..], c, b);
    }
  }

  // ----- ASCII classes and case -----

  predicate IsDigit(c: char) { '0' <= c <= '9' }

  predicate IsAlphanumeric(c: char) { IsDigit(c) || 'a' <= c <= 'z' || 'A' <= c <= 'Z' }

  predicate IsHexDigit(c: char) { IsDigit(c) || 'a' <= c <= 'f' || 'A' <= c <= 'F' }

  /** The number a lower-case hex digit denotes. */
  function Nibble(c: char): int {
    if '0' <= c <= '9' then c as int - 48 else c as int - 87
  }

  predicate IsLowerHex(c: char) {
    '0' <= c <= '9' || 'a' <= c <= 'f'
  }

  function ToLower(c: char): char {
    if 'A' <= c <= 'Z' then (c as int + 32) as char else c
  }

  function ToAsciiLowercase(s: string): (lower: string)
    ensures |lower| == |s| && forall i :: 0 <= i < |s| ==> lower[i] == ToLower(s[i])
  {
    seq(|s|, i requires 0 <= i < |s| => ToLower(s[i]))
  }

  predicate Contains(s: string, needle: string) {
    exists i {:trigger s[i..]} :: 0 <= i <= |s| && needle <= s[i..]
  }

  /** Consecutive characters of `s` from `i` on spell a word, each letter in either case. */
  predicate SpellsAt(s: string, i: int, lower: string, upper: string)
    requires |lower| == |upper|
  {
    0 <= i <= |s| - |lower| && forall k :: 0 <= k < |lower| ==> s[i + k] == lower[k] || s[i + k] == upper[k]
  }

  predicate Spells(s: string, lower: string, upper: string)
    requires |lower| == |upper|
  {
    exists i :: 0 <= i <= |s| && SpellsAt(s, i, lower, upper)
  }

  lemma ContainsSpells(s: string, lower: string, upper: string)
    requires |lower| == |upper|
    requires forall k :: 0 <= k < |lower| ==> 'a' <= lower[k] <= 'z' && upper[k] as int == lower[k] as int - 32
    ensures Contains(ToAsciiLowercase(s), lower) <==> Spells(s, lower, upper)
  {
    var t := ToAsciiLowercase(s);
    forall i | 0 <= i <= |s| ensures lower <= t[i..] <==> SpellsAt(s, i, lower, upper) {
      if SpellsAt(s, i, lower, upper) {
        assert forall k :: 0 <= k < |lower| ==> t[i..][k] == t[i + k] == lower[k];
        assert t[i..][..|lower|] == lower;
      }
      if lower <= t[i..] {
        assert forall k :: 0 <= k < |lower| ==> t[i + k] == t[i..][k] == lower[k];
      }
    }
    if Contains(t, lower) {
      var i :| 0 <= i <= |t| && lower <= t[i..];
      assert SpellsAt(s, i, lower, upper);
    }
  }

  // ----- the byte order on strings -----

  /** `a < b` in Rust's lexicographic order. */
  predicate Less(a: string, b: string) {
    b != [] && (a == [] || a[0] < b[0] || (a[0] == b[0] && Less(a[1..], b[1..])))
  }

  lemma {:induction false} LessIsStrict(a: string, b: string)
    ensures !(Less(a, b) && Less(b, a))
    ensures !Less(a, a)
  {
    if a != [] {
      LessIsStrict(a[1..], if b == [] then [] else b[1..]);
    }
  }

  lemma {:induction false} LessIsTransitive(a: string, b: string, c: string)
    requires Less(a, b) && Less(b, c)
    ensures Less(a, c)
  {
    if a != [] && a[0] == b[0] == c[0] {
      LessIsTransitive(a[1..], b[1..], c[1..]);
    }
  }

  lemma {:induction false} LessIsTotal(a: string, b: string)
    ensures a == b || Less(a, b) || Less(b, a)
  {
    if a != [] && b != [] && a[0] == b[0] {
      LessIsTotal(a[1..], b[1..]);
      assert a == [a[0]] + a[1..] && b == [b[0]] + b[1..];
    }
  }

  /** Strings of equal length settle the comparison before whatever follows them. */
  lemma {:induction false} LessByField(p: string, q: string, x: string, y: string)
    requires |p| == |q|
    ensures Less(p + x, q + y) <==> Less(p, q) || (p == q && Less(x, y))
  {
    if p == [] {
      assert p + x == x && q + y == y;
    } else {
      assert (p + x)[1..] == p[1..] + x && (q + y)[1..] == q[1..] + y;
      assert p == [p[0]] + p[1..] && q == [q[0]] + q[1..];
      LessByField(p[1..], q[1..], x, y);
      LessIsStrict(p, p);
      LessIsStrict(p[1..], p[1..]);
    }
  }

  /** Up to `k` the strings agree, and there `a` ends or has the smaller character. */
  predicate IsLessFrom(a: string, b: string, k: nat) {
    k <= |a| && k < |b| && a[..k] == b[..k] && (k == |a| || a[k] < b[k])
  }

  /** The order is the lexicographic one. */
  lemma {:induction false} LessIsLexicographic(a: string, b: string)
    ensures Less(a, b) <==> exists k: nat :: IsLessFrom(a, b, k)
  {
    if a == [] {
      assert b != [] ==> IsLessFrom(a, b, 0);
    } else if b != [] && a[0] < b[0] {
      assert IsLessFrom(a, b, 0);
    } else if b != [] && a[0] == b[0] {
      LessIsLexicographic(a[1..], b[1..]);
      forall k: nat | IsLessFrom(a[1..], b[1..], k) ensures IsLessFrom(a, b, k + 1) {
        assert a[..k + 1] == [a[0]] + a[1..][..k] && b[..k + 1] == [b[0]] + b[1..][..k];
      }
      forall k: nat | IsLessFrom(a, b, k) ensures k > 0 && IsLessFrom(a[1..], b[1..], k - 1) {
        assert a[1..][..k - 1] == a[..k][1..] && b[1..][..k - 1] == b[..k][1..];
      }
    } else {
      forall k: nat ensures !IsLessFrom(a, b, k) {
        assert k > 0 && k < |b| && k <= |a| ==> a[..k][0] != b[..k][0];
      }
    }
  }
}
