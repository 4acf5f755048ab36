/** String operations the monitors rely on, with Python's meaning: substring
    search (`p in s`), lower-casing, slicing with an ellipsis, `str(n)` for
    natural numbers, `sep.join(parts)` and `s.split(sep)`. Strings are sequences
    of Unicode code points, as Python's `str` is. */
module Text {

  /** `p` is a prefix of `s`. */
  predicate StartsWith(s: string, p: string) {
    |p| <= |s| && s[..|p|] == p
  }

  /** `p` is a suffix of `s`. */
  predicate EndsWith(s: string, p: string) {
    |p| <= |s| && s[|s| - |p|..] == p
  }

  /** A concatenation starts with its first part and ends with its second. */
  lemma Affixes(a: string, b: string)
    ensures StartsWith(a + b, a) && EndsWith(a + b, b)
  {
    assert (a + b)[..|a|] == a;
    assert (a + b)[|a + b| - |b|..] == b;
  }

  /** Text added behind keeps a prefix. */
  lemma StartsWithExtend(s: string, p: string, b: string)
    requires StartsWith(s, p)
    ensures StartsWith(s + b, p)
  {
    assert (s + b)[..|p|] == s[..|p|];
  }

  /** Python's `p in s` on strings: `p` occurs in `s` at some position. */
  predicate Contains(s: string, p: string)
    decreases |s|
  {
    StartsWith(s, p) || (|s| > 0 && Contains(s[1..], p))
  }

  /** A string lacking one of the characters of `p` does not contain `p`. */
  lemma {:induction false} ContainsNeedsChar(s: string, p: string, c: char)
    requires c in p && c !in s
    ensures !Contains(s, p)
    decreases |s|
  {
    if |s| > 0 {
      assert forall i :: 0 <= i < |s| - 1 ==> s[1..][i] == s[i + 1];
      ContainsNeedsChar(s[1..], p, c);
    }
  }

  /** Whatever surrounds `p`, the result contains `p`. */
  lemma {:induction false} ContainsInfix(a: string, p: string, b: string)
    ensures Contains(a + p + b, p)
    decreases |a|
  {
    if a == [] {
      assert a + p + b == p + b;
      assert (p + b)[..|p|] == p;
    } else {
      assert (a + p + b)[1..] == a[1..] + p + b;
      ContainsInfix(a[1..], p, b);
    }
  }

  /** Text ending in `p` contains `p`. */
  lemma ContainsSuffix(a: string, p: string)
    ensures Contains(a + p, p)
  {
    ContainsInfix(a, p, "");
    assert a + p + "" == a + p;
  }

  /** Text added in front keeps every occurrence. */
  lemma {:induction false} ContainsPrepend(a: string, s: string, p: string)
    requires Contains(s, p)
    ensures Contains(a + s, p)
    decreases |a|
  {
    if a == [] {
      assert a + s == s;
    } else {
      assert (a + s)[1..] == a[1..] + s;
      ContainsPrepend(a[1..], s, p);
    }
  }

  /** Text added behind keeps every occurrence. */
  lemma {:induction false} ContainsAppend(s: string, b: string, p: string)
    requires Contains(s, p)
    ensures Contains(s + b, p)
    decreases |s|
  {
    if StartsWith(s, p) {
      assert (s + b)[..|p|] == s[..|p|];
    } else {
      assert (s + b)[1..] == s[1..] + b;
      ContainsAppend(s[1..], b, p);
    }
  }

  /** The capital letters Python's `str.lower` maps to a small letter 32 code
      points further on: ASCII A-Z and the Latin-1 capitals À-Þ except ×. */
  predicate IsCapital(c: char) {
    ('A' <= c <= 'Z') || ('À' <= c <= 'Þ' && c != '×')
  }

  /** Lower-cases one character. */
  function LowerChar(c: char): (r: char)
    ensures !IsCapital(r)
    ensures !IsCapital(c) ==> r == c
  {
    if IsCapital(c) then (c as int + 32) as char else c
  }

  /** Python's `s.lower()`, restricted to the capitals `IsCapital` names. */
  function Lower(s: string): (r: string)
    ensures |r| == |s|
    ensures forall i :: 0 <= i < |s| ==> r[i] == LowerChar(s[i])
  {
    seq(|s|, i requires 0 <= i < |s| => LowerChar(s[i]))
  }

  /** No lower-cased text contains a capital letter such as 'N'. */
  lemma LowerHasNoCapital(s: string, c: char)
    requires IsCapital(c)
    ensures c !in Lower(s)
  {
  }

  /** Concatenation regroups freely. */
  lemma AppendAssoc<T>(a: seq<T>, b: seq<T>, c: seq<T>)
    ensures a + b + c == a + (b + c)
  {
  }

  /** Python's `s[:n]`. */
  function Clip(s: string, n: nat): (r: string)
    ensures |r| == if |s| <= n then |s| else n
    ensures r == s[..|r|]
  {
    if |s| <= n then s else s[..n]
  }

  /** `s[:n] + "..."` when `s` is longer than `n` code points, `s` otherwise. */
  function Ellipsize(s: string, n: nat): (r: string)
    ensures |s| <= n ==> r == s
    ensures |s| > n ==> |r| == n + 3 && r[..n] == s[..n] && r[n..] == "..."
  {
    if |s| > n then s[..n] + "..." else s
  }

  /** The decimal digit for `d`. */
  function Digit(d: nat): char
    requires d < 10
  {
    "0123456789"[d]
  }

  /** Python's `str(n)` for a natural number. */
  function NatToString(n: nat): (r: string)
    ensures |r| >= 1
    decreases n
  {
    if n < 10 then [Digit(n)] else NatToString(n / 10) + [Digit(n % 10)]
  }

  /** `block(first, xs[0]) + block(first + 1, xs[1]) + ...`: the shape of every
      message part that enumerates its items (Python's `enumerate(xs, first)`
      feeding `+=`). */
  function Numbered<T>(block: (nat, T) -> string, xs: seq<T>, first: nat): string
    decreases |xs|
  {
    if xs == [] then "" else block(first, xs[0]) + Numbered(block, xs[1..], first + 1)
  }

  /** Enumerating a concatenation enumerates the first part, then the second
      part with the numbering continued where the first part stopped. */
  lemma {:induction false} NumberedSplit<T>(block: (nat, T) -> string, a: seq<T>, b: seq<T>, first: nat)
    ensures Numbered(block, a + b, first) == Numbered(block, a, first) + Numbered(block, b, first + |a|)
    decreases |a|
  {
    if a == [] {
      assert a + b == b;
    } else {
      assert (a + b)[1..] == a[1..] + b;
      NumberedSplit(block, a[1..], b, first + 1);
    }
  }

  /** One more item appends exactly its own block, numbered `first + |xs|`. */
  lemma NumberedSnoc<T>(block: (nat, T) -> string, xs: seq<T>, x: T, first: nat)
    ensures Numbered(block, xs + [x], first) == Numbered(block, xs, first) + block(first + |xs|, x)
  {
    NumberedSplit(block, xs, [x], first);
    assert Numbered(block, [x], first + |xs|) == block(first + |xs|, x) + Numbered(block, [x][1..], first + |xs| + 1);
  }

  /** Every item's block occurs in the enumeration, numbered by its position. */
  lemma NumberedContains<T>(block: (nat, T) -> string, xs: seq<T>, first: nat, i: nat)
    requires i < |xs|
    ensures Contains(Numbered(block, xs, first), block(first + i, xs[i]))
  {
    var item := block(first + i, xs[i]);
    var before := Numbered(block, xs[..i], first);
    var after := Numbered(block, xs[i + 1..], first + i + 1);
    NumberedSplit(block, xs[..i], xs[i..], first);
    assert xs[..i] + xs[i..] == xs;
    NumberedSplit(block, [xs[i]], xs[i + 1..], first + i);
    assert [xs[i]] + xs[i + 1..] == xs[i..];
    assert Numbered(block, [xs[i]], first + i) == item + Numbered(block, [], first + i + 1);
    AppendAssoc(before, item, after);
    ContainsInfix(before, item, after);
  }

  /** Python's `sep.join(parts)`. */
  function Join(sep: string, parts: seq<string>): string
    decreases |parts|
  {
    if parts == [] then ""
    else if |parts| == 1 then parts[0]
    else parts[0] + sep + Join(sep, parts[1..])
  }

  /** Python's `s.split(sep)` for a one-character separator: the pieces between
      separators, never fewer than one, none containing the separator. */
  function Split(s: string, sep: char): (r: seq<string>)
    ensures |r| >= 1
    ensures forall i :: 0 <= i < |r| ==> sep !in r[i]
    decreases |s|
  {
    if s == [] then [""]
    else
      var rest := Split(s[1..], sep);
      if s[0] == sep then [""] + rest
      else [[s[0]] + rest[0]] + rest[1..]
  }

  /** Joining the pieces of a split with the separator gives back the text. */
  lemma {:induction false} JoinSplit(s: string, sep: char)
    ensures Join([sep], Split(s, sep)) == s
    decreases |s|
  {
    if s != [] {
      var rest := Split(s[1..], sep);
      JoinSplit(s[1..], sep);
      if s[0] == sep {
        var r := [""] + rest;
        assert r[1..] == rest;
        assert Join([sep], r) == "" + [sep] + Join([sep], rest);
        assert s == [s[0]] + s[1..];
      } else {
        var r := [[s[0]] + rest[0]] + rest[1..];
        assert r[1..] == rest[1..];
        if |rest| == 1 {
          assert Join([sep], rest) == rest[0];
        } else {
          assert Join([sep], rest) == rest[0] + [sep] + Join([sep], rest[1..]);
        }
        assert s == [s[0]] + s[1..];
      }
    }
  }
}
