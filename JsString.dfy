/** The few JavaScript string primitives the cookie routines rely on:
    String.prototype.trim, toLowerCase (as far as comparing against "expires="
    is concerned), split on a one-character separator and Array.prototype.join. */
module JsString {

  /** The characters String.prototype.trim removes: ECMAScript WhiteSpace and LineTerminator. */
  predicate IsSpace(c: char) {
    c == '\t' || c == '\n' || c == '\U{B}' || c == '\U{C}' || c == '\r' || c == ' '
    || c == '\U{A0}' || c == '\U{1680}' || ('\U{2000}' <= c <= '\U{200A}')
    || c == '\U{2028}' || c == '\U{2029}' || c == '\U{202F}' || c == '\U{205F}'
    || c == '\U{3000}' || c == '\U{FEFF}'
  }

  predicate AllSpace(s: string) {
    forall k :: 0 <= k < |s| ==> IsSpace(s[k])
  }

  /** A string with no white space at either end. */
  predicate IsTrimmed(s: string) {
    s == [] || (!IsSpace(s[0]) && !IsSpace(s[|s| - 1]))
  }

  /** Index of the first character at or after b that is not white space (|s| if none). */
  function SkipSpaces(s: string, b: nat): (r: nat)
    requires b <= |s|
    ensures b <= r <= |s|
    ensures forall k :: b <= k < r ==> IsSpace(s[k])
    ensures r < |s| ==> !IsSpace(s[r])
    decreases |s| - b
  {
    if b < |s| && IsSpace(s[b]) then SkipSpaces(s, b + 1) else b
  }

  /** End of s[lo..e] once its trailing white space is dropped. */
  function DropTrailingSpaces(s: string, lo: nat, e: nat): (r: nat)
    requires lo <= e <= |s|
    ensures lo <= r <= e
    ensures forall k :: r <= k < e ==> IsSpace(s[k])
    ensures r > lo ==> !IsSpace(s[r - 1])
    decreases e
  {
    if e > lo && IsSpace(s[e - 1]) then DropTrailingSpaces(s, lo, e - 1) else e
  }

  /** String.prototype.trim: s without its leading and trailing white space. */
  function Trim(s: string): string {
    var lo := SkipSpaces(s, 0);
    s[lo..DropTrailingSpaces(s, lo, |s|)]
  }

  /** trim() returns an infix s[lo..hi] of s with only white space outside it. */
  lemma TrimIsInfix(s: string)
    ensures var lo := SkipSpaces(s, 0);
            var hi := DropTrailingSpaces(s, lo, |s|);
            && Trim(s) == s[lo..hi]
            && (forall k :: 0 <= k < lo ==> IsSpace(s[k]))
            && (forall k :: hi <= k < |s| ==> IsSpace(s[k]))
  {
  }

  /** trim() leaves no white space at either end. */
  lemma TrimIsTrimmed(s: string)
    ensures IsTrimmed(Trim(s))
  {
    var lo := SkipSpaces(s, 0);
    var hi := DropTrailingSpaces(s, lo, |s|);
    var r := s[lo..hi];
    assert Trim(s) == r;
    if lo < hi {
      assert !IsSpace(r[0]) by { assert r[0] == s[lo]; }
      assert !IsSpace(r[|r| - 1]) by { assert r[|r| - 1] == s[hi - 1]; }
    }
  }

  /** trim() yields the empty string (JavaScript's falsy value) exactly for blank strings. */
  lemma TrimEmptyIffBlank(s: string)
    ensures Trim(s) == "" <==> AllSpace(s)
  {
    var lo := SkipSpaces(s, 0);
    var hi := DropTrailingSpaces(s, lo, |s|);
    if lo < |s| {
      assert !IsSpace(s[lo]);
      assert lo < hi;
      assert |Trim(s)| > 0;
    }
  }

  /** trim() is idempotent. */
  lemma TrimIdempotent(s: string)
    ensures Trim(Trim(s)) == Trim(s)
  {
    TrimIsTrimmed(s);
    var r := Trim(s);
    assert SkipSpaces(r, 0) == 0;
    assert DropTrailingSpaces(r, 0, |r|) == |r|;
  }

  /** Lower-casing as far as a comparison with a lower-case ASCII literal is concerned:
      only the ASCII capitals lower-case to an ASCII letter without changing length. */
  function Lower(c: char): char {
    if 'A' <= c <= 'Z' then (c as int - 'A' as int + 'a' as int) as char else c
  }

  /** String.prototype.toLowerCase, see Lower. */
  function ToLower(s: string): string {
    seq(|s|, k requires 0 <= k < |s| => Lower(s[k]))
  }

  /** Array.prototype.join(sep). */
  function Join(parts: seq<string>, sep: string): string {
    if |parts| == 0 then ""
    else if |parts| == 1 then parts[0]
    else Join(parts[..|parts| - 1], sep) + sep + parts[|parts| - 1]
  }

  /** String.prototype.split(sep) for a one-character separator: s cut at every sep. */
  function Split(s: string, sep: char): (r: seq<string>)
    ensures |r| >= 1
  {
    if s == [] then [""]
    else
      var init := Split(s[..|s| - 1], sep);
      if s[|s| - 1] == sep then init + [""]
      else init[..|init| - 1] + [init[|init| - 1] + [s[|s| - 1]]]
  }

  /** Joining the pieces of a split with the separator gives back the string. */
  lemma {:induction false} JoinSplit(s: string, sep: char)
    ensures Join(Split(s, sep), [sep]) == s
  {
    if s != [] {
      var a, c := s[..|s| - 1], s[|s| - 1];
      var init := Split(a, sep);
      var n := |init|;
      JoinSplit(a, sep);
      assert s == a + [c];
      if c == sep {
        JoinAppend(init, "", [sep]);
      } else if n > 1 {
        var front := init[..n - 1];
        assert init == front + [init[n - 1]];
        JoinAppend(front, init[n - 1], [sep]);
        JoinAppend(front, init[n - 1] + [c], [sep]);
      }
    }
  }

  /** No piece of a split holds the separator. */
  lemma {:induction false} SplitPiecesExclude(s: string, sep: char)
    ensures forall k :: 0 <= k < |Split(s, sep)| ==> sep !in Split(s, sep)[k]
  {
    if s != [] {
      var a, c := s[..|s| - 1], s[|s| - 1];
      SplitPiecesExclude(a, sep);
    }
  }

  lemma {:induction false} SplitWithoutSeparator(x: string, sep: char)
    requires sep !in x
    ensures Split(x, sep) == [x]
  {
    if x != [] {
      SplitWithoutSeparator(x[..|x| - 1], sep);
      assert x[..|x| - 1] + [x[|x| - 1]] == x;
    }
  }

  lemma {:induction false} SplitAfterSeparator(a: string, x: string, sep: char)
    requires sep !in x
    ensures Split(a + [sep] + x, sep) == Split(a, sep) + [x]
  {
    var s := a + [sep] + x;
    if x == [] {
      assert s[..|s| - 1] == a;
    } else {
      SplitAfterSeparator(a, x[..|x| - 1], sep);
      assert s[..|s| - 1] == a + [sep] + x[..|x| - 1];
      assert x[..|x| - 1] + [x[|x| - 1]] == x;
    }
  }

  /** Splitting a join of separator-free pieces gives back the pieces. */
  lemma {:induction false} SplitJoin(parts: seq<string>, sep: char)
    requires |parts| >= 1
    requires forall k :: 0 <= k < |parts| ==> sep !in parts[k]
    ensures Split(Join(parts, [sep]), sep) == parts
  {
    var n := |parts|;
    if n == 1 {
      SplitWithoutSeparator(parts[0], sep);
    } else {
      SplitJoin(parts[..n - 1], sep);
      SplitAfterSeparator(Join(parts[..n - 1], [sep]), parts[n - 1], sep);
      assert parts[..n - 1] + [parts[n - 1]] == parts;
    }
  }

  lemma JoinAppend(parts: seq<string>, x: string, sep: string)
    requires |parts| >= 1
    ensures Join(parts + [x], sep) == Join(parts, sep) + sep + x
  {
    assert (parts + [x])[..|parts|] == parts;
  }

  /** Joining two non-empty lists is joining their joins. */
  lemma {:induction false} JoinConcat(a: seq<string>, b: seq<string>, sep: string)
    requires |a| >= 1 && |b| >= 1
    ensures Join(a + b, sep) == Join(a, sep) + sep + Join(b, sep)
    decreases |b|
  {
    var n := |b|;
    if n == 1 {
      JoinAppend(a, b[0], sep);
    } else {
      var b' := b[..n - 1];
      JoinConcat(a, b', sep);
      assert a + b == (a + b') + [b[n - 1]];
      JoinAppend(a + b', b[n - 1], sep);
      JoinAppend(b', b[n - 1], sep);
      assert b' + [b[n - 1]] == b;
    }
  }

  /** The join starts with the first part. */
  lemma {:induction false} JoinStartsWithFirst(parts: seq<string>, sep: string)
    requires |parts| >= 1
    ensures parts[0] <= Join(parts, sep)
    decreases |parts|
  {
    if |parts| > 1 {
      JoinStartsWithFirst(parts[..|parts| - 1], sep);
    }
  }
}
