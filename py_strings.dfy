/**
 * The Python `str` operations the recogniser and the indexer rely on, on `seq<char>`:
 * `strip()`, `lower()`, `in` (substring), `startswith`, `split(sep)`, `sep.join(parts)`,
 * `split(":", 1)[-1]` and `strip(chars)`.
 */
module PyStrings {

  /** The characters `str.isspace()` accepts (the set `str.strip()` removes). */
  predicate IsSpace(c: char) {
    c == ' ' || ('\t' <= c <= '\r') || ('\U{1C}' <= c <= '\U{1F}')
    || c == '\U{85}' || c == '\U{A0}' || c == '\U{1680}' || ('\U{2000}' <= c <= '\U{200A}')
    || c == '\U{2028}' || c == '\U{2029}' || c == '\U{202F}' || c == '\U{205F}' || c == '\U{3000}'
  }

  /** Number of leading whitespace characters. */
  function SpanLeft(s: string): (i: nat)
    ensures i <= |s|
    ensures forall k :: 0 <= k < i ==> IsSpace(s[k])
    ensures i == |s| || !IsSpace(s[i])
  {
    if s == [] || !IsSpace(s[0]) then 0 else 1 + SpanLeft(s[1..])
  }

  /** Number of trailing whitespace characters. */
  function SpanRight(s: string): (i: nat)
    ensures i <= |s|
    ensures forall k :: |s| - i <= k < |s| ==> IsSpace(s[k])
    ensures i == |s| || !IsSpace(s[|s| - 1 - i])
  {
    if s == [] || !IsSpace(s[|s| - 1]) then 0 else 1 + SpanRight(s[..|s| - 1])
  }

  /** `s.strip()`: the slice left after removing whitespace at both ends. */
  function Strip(s: string): (r: string)
    ensures |r| <= |s|
    ensures r == [] || (!IsSpace(r[0]) && !IsSpace(r[|r| - 1]))
    ensures forall c :: c in r ==> c in s
    ensures (r == []) <==> (forall k :: 0 <= k < |s| ==> IsSpace(s[k]))
    ensures exists i, j :: TrimOf(s, r, i, j)
  {
    var t := s[SpanLeft(s)..];
    var r := t[..|t| - SpanRight(t)];
    SliceBetween(s, SpanLeft(s), SpanRight(t));
    TrimEdges(s, r, SpanLeft(s), SpanLeft(s) + |t| - SpanRight(t));
    r
  }

  /** What a trimmed slice with non-space edges says about the whole string. */
  lemma TrimEdges(s: string, r: string, i: nat, j: nat)
    requires TrimOf(s, r, i, j)
    requires i == |s| || !IsSpace(s[i])
    requires j == i || !IsSpace(s[j - 1])
    ensures |r| <= |s|
    ensures r == [] || (!IsSpace(r[0]) && !IsSpace(r[|r| - 1]))
    ensures forall c :: c in r ==> c in s
    ensures (r == []) <==> (forall k :: 0 <= k < |s| ==> IsSpace(s[k]))
  {
    forall c | c in r ensures c in s {
      var k :| 0 <= k < |r| && r[k] == c;
      assert s[i + k] == c;
    }
    if r != [] {
      assert r[0] == s[i] && r[|r| - 1] == s[j - 1];
    }
  }

  /**
   * Cutting `i` leading and then `m` trailing whitespace characters leaves the slice between
   * them; when neither cut could go further, the slice is empty or has non-space edges.
   */
  lemma SliceBetween(s: string, i: nat, m: nat)
    requires i <= |s| && m <= |s| - i
    requires forall k :: 0 <= k < i ==> IsSpace(s[k])
    requires i == |s| || !IsSpace(s[i])
    requires var t := s[i..]; forall k :: |t| - m <= k < |t| ==> IsSpace(t[k])
    requires var t := s[i..]; m == |t| || !IsSpace(t[|t| - 1 - m])
    ensures var t := s[i..];
            var j := i + |t| - m;
            && TrimOf(s, t[..|t| - m], i, j)
            && (j == i || !IsSpace(s[j - 1]))
  {
    var t := s[i..];
    var j := i + |t| - m;
    forall k | j <= k < |s| ensures IsSpace(s[k]) {
      assert s[k] == t[k - i];
    }
    assert t[..|t| - m] == s[i..j];
    if m < |t| {
      assert s[j - 1] == t[|t| - 1 - m];
    }
  }

  /** `r` is the slice `s[i..j]`, and only whitespace lies outside it. */
  predicate TrimOf(s: string, r: string, i: nat, j: nat) {
    i <= j <= |s| && r == s[i..j] &&
    (forall k :: 0 <= k < i ==> IsSpace(s[k])) && (forall k :: j <= k < |s| ==> IsSpace(s[k]))
  }

  /** A string that already has no whitespace at either end is its own `strip()`. */
  lemma StripTrimmed(s: string)
    requires s == [] || (!IsSpace(s[0]) && !IsSpace(s[|s| - 1]))
    ensures Strip(s) == s
  {
    assert SpanLeft(s) == 0;
    assert s[0..] == s;
  }

  /** `strip()` is idempotent. */
  lemma StripIdempotent(s: string)
    ensures Strip(Strip(s)) == Strip(s)
  {
    StripTrimmed(Strip(s));
  }

  /** A leading space does not survive `strip()`. */
  lemma StripSpaceFront(t: string)
    ensures Strip(" " + t) == Strip(t)
  {
    var s := " " + t;
    assert s[1..] == t;
    assert SpanLeft(s) == 1 + SpanLeft(t);
    assert s[SpanLeft(s)..] == t[SpanLeft(t)..];
  }

  /** `lower()` of one character: ASCII letters only. */
  function LowerChar(c: char): char {
    if 'A' <= c <= 'Z' then (c as int - 'A' as int + 'a' as int) as char else c
  }

  /** `s.lower()`, restricted to ASCII letters. */
  function Lower(s: string): (r: string)
    ensures |r| == |s|
    ensures forall i :: 0 <= i < |s| ==> r[i] == LowerChar(s[i])
  {
    seq(|s|, i requires 0 <= i < |s| => LowerChar(s[i]))
  }

  /** `p in s` for strings: `p` occurs in `s` as a substring. */
  predicate Contains(s: string, p: string)
    decreases |s|
  {
    |p| <= |s| && (s[..|p|] == p || (s != [] && Contains(s[1..], p)))
  }

  /** An occurrence of `p` cannot start inside a prefix that lacks `p`'s first character. */
  lemma {:induction false} ContainsSkip(a: string, b: string, p: string)
    requires p != [] && p[0] !in a
    ensures Contains(a + b, p) <==> Contains(b, p)
    decreases |a|
  {
    if a == [] {
      assert a + b == b;
    } else {
      assert (a + b)[0] == a[0];
      assert (a + b)[1..] == a[1..] + b;
      ContainsSkip(a[1..], b, p);
    }
  }

  /** `p` occurs in `s` at position `i`. */
  predicate OccursAt(s: string, p: string, i: nat) {
    i + |p| <= |s| && s[i..i + |p|] == p
  }

  /** An occurrence of `p` at position `i` of `s`. */
  lemma {:induction false} ContainsAt(s: string, p: string, i: nat)
    requires OccursAt(s, p, i)
    ensures Contains(s, p)
    decreases i
  {
    if i > 0 {
      assert s[1..][i - 1..i - 1 + |p|] == s[i..i + |p|];
      ContainsAt(s[1..], p, i - 1);
    } else {
      assert s[..|p|] == s[0..|p|];
    }
  }

  /** `p in s` names a position where `p` occurs. */
  lemma {:induction false} ContainsWitness(s: string, p: string)
    requires Contains(s, p)
    ensures exists i :: OccursAt(s, p, i)
    decreases |s|
  {
    if s[..|p|] == p {
      assert OccursAt(s, p, 0);
    } else {
      ContainsWitness(s[1..], p);
      var i: nat :| OccursAt(s[1..], p, i);
      assert s[1..][i..i + |p|] == s[i + 1..i + 1 + |p|];
      assert OccursAt(s, p, i + 1);
    }
  }

  /** A string without `p` has no occurrence of it at `i`. */
  lemma NotOccurs(s: string, p: string, i: nat)
    requires !Contains(s, p)
    ensures !OccursAt(s, p, i)
  {
    if OccursAt(s, p, i) {
      ContainsAt(s, p, i);
      assert false;
    }
  }

  /** A string with no occurrence of `p` at any position does not contain `p`. */
  lemma NotContains(s: string, p: string)
    requires forall i: nat :: !OccursAt(s, p, i)
    ensures !Contains(s, p)
  {
    if Contains(s, p) {
      ContainsWitness(s, p);
      assert false;
    }
  }

  /** An occurrence in a slice is an occurrence in the whole string. */
  lemma ContainsSlice(s: string, i: nat, j: nat, p: string)
    requires i <= j <= |s| && Contains(s[i..j], p)
    ensures Contains(s, p)
  {
    ContainsWitness(s[i..j], p);
    var k: nat :| OccursAt(s[i..j], p, k);
    assert k + |p| <= j - i && s[i..j][k..k + |p|] == p;
    forall m | 0 <= m < |p| ensures s[i + k + m] == p[m] {
      assert s[i..j][k..k + |p|][m] == s[i..j][k + m];
    }
    assert s[i + k..i + k + |p|] == p;
    ContainsAt(s, p, i + k);
  }

  /** `lower()` commutes with slicing. */
  lemma LowerSlice(s: string, i: nat, j: nat)
    requires i <= j <= |s|
    ensures Lower(s[i..j]) == Lower(s)[i..j]
  {
  }

  /** What `strip()` leaves of `s` cannot hold a substring that `s`, lower-cased, lacks. */
  lemma StripContains(s: string, p: string)
    requires Contains(Lower(Strip(s)), p)
    ensures Contains(Lower(s), p)
  {
    var i: nat, j: nat :| TrimOf(s, Strip(s), i, j);
    LowerSlice(s, i, j);
    ContainsSlice(Lower(s), i, j, p);
  }

  /** `s.startswith(p)`. */
  predicate StartsWith(s: string, p: string) {
    |p| <= |s| && s[..|p|] == p
  }

  /** A concatenation starts with its first part, with its first two and with its first three. */
  lemma PrefixesOf(a: string, b: string, c: string, d: string)
    ensures StartsWith(a + b + c + d, a) && StartsWith(a + b + c + d, a + b)
    ensures StartsWith(a + b + c + d, a + b + c)
    ensures b == [] ==> StartsWith(a + b + c + d, a + c)
  {
    var s := a + b + c + d;
    assert s[..|a|] == a;
    assert s[..|a + b|] == a + b;
    assert s[..|a + b + c|] == a + b + c;
    if b == [] {
      assert s[..|a + c|] == a + c;
    }
  }

  /** `s.split(sep)` for a non-empty separator: leftmost, non-overlapping occurrences. */
  function Split(s: string, sep: string): (parts: seq<string>)
    requires sep != []
    ensures |parts| >= 1
    decreases |s|
  {
    if |s| < |sep| then [s]
    else if s[..|sep|] == sep then [""] + Split(s[|sep|..], sep)
    else
      var rest := Split(s[1..], sep);
      [[s[0]] + rest[0]] + rest[1..]
  }

  /** `sep.join(parts)`. */
  function Join(sep: string, parts: seq<string>): string {
    if |parts| == 0 then ""
    else if |parts| == 1 then parts[0]
    else parts[0] + sep + Join(sep, parts[1..])
  }

  lemma JoinCons(sep: string, a: string, rest: seq<string>)
    requires |rest| >= 1
    ensures Join(sep, [a] + rest) == a + sep + Join(sep, rest)
  {
    assert ([a] + rest)[1..] == rest;
  }

  /** Splitting and joining back with the same separator gives the original string. */
  lemma {:induction false} JoinSplit(s: string, sep: string)
    requires sep != []
    ensures Join(sep, Split(s, sep)) == s
    decreases |s|
  {
    if |s| < |sep| {
    } else if s[..|sep|] == sep {
      var rest := Split(s[|sep|..], sep);
      assert Split(s, sep) == [""] + rest;
      JoinSplit(s[|sep|..], sep);
      JoinCons(sep, "", rest);
      assert "" + sep + s[|sep|..] == s;
    } else {
      var rest := Split(s[1..], sep);
      assert Split(s, sep) == [[s[0]] + rest[0]] + rest[1..];
      JoinSplit(s[1..], sep);
      JoinPrepend(sep, s[0], rest);
      assert [s[0]] + s[1..] == s;
    }
  }

  /** Prepending a character to the first part prepends it to the joined string. */
  lemma JoinPrepend(sep: string, c: char, parts: seq<string>)
    requires |parts| >= 1
    ensures Join(sep, [[c] + parts[0]] + parts[1..]) == [c] + Join(sep, parts)
  {
    if |parts| > 1 {
      JoinCons(sep, [c] + parts[0], parts[1..]);
      JoinCons(sep, parts[0], parts[1..]);
      assert parts == [parts[0]] + parts[1..];
    }
  }

  /** Splitting on one character `c`: a prefix free of `c`, then `c`, splits off that prefix. */
  lemma {:induction false} SplitAtFirst(a: string, c: char, rest: string)
    requires c !in a
    ensures Split(a + [c] + rest, [c]) == [a] + Split(rest, [c])
    decreases |a|
  {
    var s := a + [c] + rest;
    if a == [] {
      assert s[..1] == [c];
      assert s[1..] == rest;
    } else {
      assert s[..1] == [a[0]];
      assert s[1..] == a[1..] + [c] + rest;
      SplitAtFirst(a[1..], c, rest);
      assert [a[0]] + a[1..] == a;
    }
  }

  /** Splitting a string free of `c` on `c` gives the string itself. */
  lemma {:induction false} SplitNone(a: string, c: char)
    requires c !in a
    ensures Split(a, [c]) == [a]
    decreases |a|
  {
    if a != [] {
      assert a[..1] == [a[0]];
      SplitNone(a[1..], c);
      assert [a[0]] + a[1..] == a;
    }
  }

  /** Joining on `c` and splitting on `c` again gives the parts back when no part holds `c`. */
  lemma {:induction false} SplitJoin(parts: seq<string>, c: char)
    requires |parts| >= 1
    requires forall i :: 0 <= i < |parts| ==> c !in parts[i]
    ensures Split(Join([c], parts), [c]) == parts
    decreases |parts|
  {
    if |parts| == 1 {
      SplitNone(parts[0], c);
    } else {
      SplitJoin(parts[1..], c);
      SplitAtFirst(parts[0], c, Join([c], parts[1..]));
      assert parts == [parts[0]] + parts[1..];
    }
  }

  /** The joined string ends with the last part. */
  lemma {:induction false} JoinEndsWith(sep: string, parts: seq<string>)
    requires |parts| >= 1
    ensures |parts[|parts| - 1]| <= |Join(sep, parts)|
    ensures Join(sep, parts)[|Join(sep, parts)| - |parts[|parts| - 1]|..] == parts[|parts| - 1]
    decreases |parts|
  {
    if |parts| > 1 {
      JoinEndsWith(sep, parts[1..]);
      var a := parts[0] + sep;
      var j := Join(sep, parts[1..]);
      var n := |parts[|parts| - 1]|;
      assert Join(sep, parts) == a + j;
      assert (a + j)[|a + j| - n..] == j[|j| - n..];
    }
  }

  /** A joined string whose first and last parts have no whitespace at their outer ends is stripped already. */
  lemma JoinStripped(sep: string, parts: seq<string>)
    requires |parts| >= 1
    requires parts[0] != [] && !IsSpace(parts[0][0])
    requires parts[|parts| - 1] != [] && !IsSpace(parts[|parts| - 1][|parts[|parts| - 1]| - 1])
    ensures Strip(Join(sep, parts)) == Join(sep, parts)
  {
    var j := Join(sep, parts);
    var last := parts[|parts| - 1];
    assert j[0] == parts[0][0] by {
      if |parts| > 1 {
        assert j == parts[0] + sep + Join(sep, parts[1..]);
      }
    }
    JoinEndsWith(sep, parts);
    assert j[|j| - 1] == j[|j| - |last|..][|last| - 1];
    StripTrimmed(j);
  }

  /** The position of the first `c` in `s`. */
  function IndexOf(s: string, c: char): (i: nat)
    requires c in s
    ensures i < |s| && s[i] == c && c !in s[..i]
  {
    if s[0] == c then 0
    else
      var i := IndexOf(s[1..], c);
      assert s[..i + 1] == [s[0]] + s[1..][..i];
      i + 1
  }

  /** `s.split(c, 1)[-1]`: the text after the first `c`, or all of `s` when it has none. */
  function AfterFirst(s: string, c: char): (r: string)
    ensures c !in s ==> r == s
    ensures c in s ==> exists i :: 0 <= i < |s| && s[i] == c && c !in s[..i] && r == s[i + 1..]
  {
    if c !in s then s else s[IndexOf(s, c) + 1..]
  }

  /** `s.strip(chars)`: removes characters of `chars` at both ends. */
  function StripChars(s: string, chars: string): (r: string)
    decreases |s|
  {
    if s != [] && s[0] in chars then StripChars(s[1..], chars)
    else if s != [] && s[|s| - 1] in chars then StripChars(s[..|s| - 1], chars)
    else s
  }

  /** The decimal digits of `n`, as `str(n)` writes them. */
  function NatToString(n: nat): (r: string)
    ensures |r| >= 1
    ensures forall c :: c in r ==> '0' <= c <= '9'
  {
    if n < 10 then [(n + '0' as int) as char]
    else NatToString(n / 10) + [(n % 10 + '0' as int) as char]
  }

  /** `str(i)` for an integer. */
  function IntToString(i: int): string {
    if i < 0 then "-" + NatToString(-i) else NatToString(i)
  }
}
