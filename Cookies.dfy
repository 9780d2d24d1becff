/** Cookie normalisation of QRCodeHandler: formatCookiesToList splits a raw
    Set-Cookie header into entries without breaking at the comma inside an
    Expires date, and formatCookie reduces a list of entries to the compact
    credential "name=value;name=value". */
module Cookies {
  import opened JsString

  // ---------------------------------------------------------------------------
  // formatCookiesToList
  // ---------------------------------------------------------------------------

  /** The case-insensitive 8-character lookahead "expires=" matches at index i. */
  predicate ExpiresAt(s: string, i: nat) {
    i + 8 <= |s| && ToLower(s[i..i + 8]) == "expires="
  }

  /** The inExpires flag once the scan has consumed s[..n]: it is raised where
      "expires=" starts and lowered by the next ';'. */
  function InExpiresAfter(s: string, n: nat): bool
    requires n <= |s|
  {
    n > 0 && (ExpiresAt(s, n - 1) || InExpiresAfter(s, n - 1)) && s[n - 1] != ';'
  }

  /** Declarative reading of the flag at index j: some "expires=" starts at or
      before j and no ';' occurs from there up to and including j. */
  ghost predicate WithinExpires(s: string, j: nat)
    requires j < |s|
  {
    exists i :: 0 <= i <= j && ExpiresAt(s, i) && NoSemicolon(s, i, j + 1)
  }

  /** No ';' in s[lo..hi]. */
  predicate NoSemicolon(s: string, lo: nat, hi: nat)
    requires lo <= hi <= |s|
  {
    forall k :: lo <= k < hi ==> s[k] != ';'
  }

  /** The comma at index j ends the current entry. */
  predicate IsBreak(s: string, j: nat)
    requires j < |s|
  {
    s[j] == ',' && !InExpiresAfter(s, j + 1)
  }

  /** Where the scan stands once it has consumed s[..n]: the entries it has
      closed (untrimmed) and the entry it is still accumulating. */
  datatype ScanState = ScanState(closed: seq<string>, current: string)

  function Scan(s: string, n: nat): ScanState
    requires n <= |s|
  {
    if n == 0 then ScanState([], "")
    else
      var st := Scan(s, n - 1);
      if IsBreak(s, n - 1) then ScanState(st.closed + [st.current], "")
      else ScanState(st.closed, st.current + [s[n - 1]])
  }

  /** The untrimmed entries of s[..n]: s[..n] cut at every top-level comma. */
  function Pieces(s: string, n: nat): seq<string>
    requires n <= |s|
  {
    Scan(s, n).closed + [Scan(s, n).current]
  }

  function TrimAll(p: seq<string>): seq<string> {
    seq(|p|, k requires 0 <= k < |p| => Trim(p[k]))
  }

  lemma TrimAllAppend(p: seq<string>, x: string)
    ensures TrimAll(p + [x]) == TrimAll(p) + [Trim(x)]
  {
  }

  /** The value formatCookiesToList returns: every entry trimmed, the last one
      dropped only when it is blank. */
  function CookieList(s: string): seq<string> {
    var st := Scan(s, |s|);
    var last := Trim(st.current);
    TrimAll(st.closed) + (if last != "" then [last] else [])
  }

  lemma ToLowerWindow(s: string, i: nat)
    requires i <= |s|
    ensures var w := s[i..if i + 8 <= |s| then i + 8 else |s|];
            ToLower(w) == "expires=" <==> ExpiresAt(s, i)
  {
    var w := s[i..if i + 8 <= |s| then i + 8 else |s|];
    if i + 8 > |s| {
      assert |ToLower(w)| < 8;
    }
  }

  method FormatCookiesToList(cookieString: string) returns (result: seq<string>)
    ensures result == CookieList(cookieString)
  {
    result := [];
    var currentCookie := "";
    var inExpires := false;
    for i := 0 to |cookieString|
      invariant inExpires == InExpiresAfter(cookieString, i)
      invariant result == TrimAll(Scan(cookieString, i).closed)
      invariant currentCookie == Scan(cookieString, i).current
    {
      var c := cookieString[i];
      ToLowerWindow(cookieString, i);
      if ToLower(cookieString[i..if i + 8 <= |cookieString| then i + 8 else |cookieString|]) == "expires=" {
        inExpires := true;
      }
      if inExpires && c == ';' {
        inExpires := false;
      }
      assert inExpires == InExpiresAfter(cookieString, i + 1);
      if c == ',' && !inExpires {
        TrimAllAppend(Scan(cookieString, i).closed, currentCookie);
        result := result + [Trim(currentCookie)];
        currentCookie := "";
      } else {
        currentCookie := currentCookie + [c];
      }
    }
    var last := Trim(currentCookie);
    if last != "" {
      result := result + [last];
    }
  }

  lemma {:induction false} InExpiresAfterWithin(s: string, j: nat)
    requires j < |s| && InExpiresAfter(s, j + 1)
    ensures WithinExpires(s, j)
  {
    if ExpiresAt(s, j) {
      assert NoSemicolon(s, j, j + 1);
    } else {
      assert j > 0 && InExpiresAfter(s, j);
      InExpiresAfterWithin(s, j - 1);
      var i :| 0 <= i <= j - 1 && ExpiresAt(s, i) && NoSemicolon(s, i, j);
      assert NoSemicolon(s, i, j + 1);
    }
  }

  lemma {:induction false} WithinInExpiresAfter(s: string, j: nat)
    requires j < |s| && WithinExpires(s, j)
    ensures InExpiresAfter(s, j + 1)
  {
    var i :| 0 <= i <= j && ExpiresAt(s, i) && NoSemicolon(s, i, j + 1);
    assert s[j] != ';';
    if i < j {
      assert NoSemicolon(s, i, j);
      assert WithinExpires(s, j - 1);
      WithinInExpiresAfter(s, j - 1);
    }
  }

  /** The flag is raised at index j exactly when the declarative reading holds. */
  lemma InExpiresAfterIff(s: string, j: nat)
    requires j < |s|
    ensures InExpiresAfter(s, j + 1) <==> WithinExpires(s, j)
  {
    if InExpiresAfter(s, j + 1) {
      InExpiresAfterWithin(s, j);
    }
    if WithinExpires(s, j) {
      WithinInExpiresAfter(s, j);
    }
  }

  /** A comma after an "expires=" match and before the next ';' is appended to
      the current entry; any other comma closes it and starts a new, empty one. */
  lemma CommaSplitsOnlyOutsideExpires(s: string, j: nat)
    requires j < |s| && s[j] == ','
    ensures var st := Scan(s, j);
            WithinExpires(s, j) ==> Scan(s, j + 1) == ScanState(st.closed, st.current + ",")
    ensures var st := Scan(s, j);
            !WithinExpires(s, j) ==> Scan(s, j + 1) == ScanState(st.closed + [st.current], "")
  {
    InExpiresAfterIff(s, j);
  }

  /** The entries, put back together with the splitting commas, are the input:
      nothing but the splitting commas is removed and the order is kept. */
  lemma {:induction false} PiecesJoin(s: string, n: nat)
    requires n <= |s|
    ensures Join(Pieces(s, n), ",") == s[..n]
  {
    if n > 0 {
      var st := Scan(s, n - 1);
      PiecesJoin(s, n - 1);
      var k := |st.closed|;
      assert s[..n] == s[..n - 1] + [s[n - 1]];
      if IsBreak(s, n - 1) {
        assert Pieces(s, n) == Pieces(s, n - 1) + [""];
      } else if k > 0 {
        assert Pieces(s, n)[..k] == st.closed;
        assert Pieces(s, n - 1)[..k] == st.closed;
      }
    }
  }

  /** Without any "expires=" the scan is a plain split at every comma. */
  lemma {:induction false} PiecesWithoutExpires(s: string, n: nat)
    requires n <= |s|
    requires forall i :: 0 <= i < |s| ==> !ExpiresAt(s, i)
    ensures !InExpiresAfter(s, n)
    ensures Pieces(s, n) == Split(s[..n], ',')
  {
    if n > 0 {
      PiecesWithoutExpires(s, n - 1);
      assert s[..n][..n - 1] == s[..n - 1];
      var st := Scan(s, n - 1);
      if !IsBreak(s, n - 1) {
        assert Pieces(s, n - 1)[..|st.closed|] == st.closed;
      }
    }
  }

  /** formatCookiesToList of a header with no case-insensitive "expires=":
      the input split at every ',', each piece trimmed, the final piece dropped
      only when blank (middle pieces are kept even when empty). */
  lemma CookieListWithoutExpires(s: string)
    requires forall i :: 0 <= i < |s| ==> !ExpiresAt(s, i)
    ensures var q := Split(s, ',');
            var last := Trim(q[|q| - 1]);
            CookieList(s) == TrimAll(q[..|q| - 1]) + (if last != "" then [last] else [])
    ensures var q := Split(s, ',');
            Join(q, ",") == s && forall k :: 0 <= k < |q| ==> ',' !in q[k]
  {
    JoinSplit(s, ',');
    SplitPiecesExclude(s, ',');
    PiecesWithoutExpires(s, |s|);
    assert s[..|s|] == s;
    var st := Scan(s, |s|);
    assert Pieces(s, |s|)[..|st.closed|] == st.closed;
  }

  /** Every comma of s lies inside an expires value, so none ends an entry. */
  ghost predicate CommasWithinExpires(s: string) {
    forall j :: 0 <= j < |s| && s[j] == ',' ==> WithinExpires(s, j)
  }

  lemma {:induction false} ScanWithoutBreaks(s: string, n: nat)
    requires n <= |s| && CommasWithinExpires(s)
    ensures Scan(s, n) == ScanState([], s[..n])
  {
    if n > 0 {
      ScanWithoutBreaks(s, n - 1);
      if s[n - 1] == ',' {
        WithinInExpiresAfter(s, n - 1);
      }
      assert !IsBreak(s, n - 1);
      assert s[..n] == s[..n - 1] + [s[n - 1]];
    }
  }

  /** A header whose commas all lie inside expires values (in particular one
      with no comma) is one entry, trimmed, or none when blank. */
  lemma CookieListOfOneEntry(s: string)
    requires CommasWithinExpires(s)
    ensures CookieList(s) == if Trim(s) != "" then [Trim(s)] else []
  {
    ScanWithoutBreaks(s, |s|);
    assert s[..|s|] == s;
  }

  /** Every element formatCookiesToList returns is trimmed and is the trimmed
      k-th entry of the input. */
  lemma CookieListEntries(s: string)
    ensures var p := Pieces(s, |s|);
            |p| - 1 <= |CookieList(s)| <= |p|
            && forall k :: 0 <= k < |CookieList(s)| ==>
                 CookieList(s)[k] == Trim(p[k]) && IsTrimmed(CookieList(s)[k])
  {
    var p := Pieces(s, |s|);
    forall k | 0 <= k < |p| {
      TrimIsTrimmed(p[k]);
    }
  }

  // ---------------------------------------------------------------------------
  // formatCookie
  // ---------------------------------------------------------------------------

  /** A JavaScript value handed to formatCookie: a string or anything else. */
  datatype JsValue = Str(s: string) | NonString

  /** formatCookie's argument: an array, or any other value (wrapped as [value]). */
  datatype CookieArg = Single(v: JsValue) | List(items: seq<JsValue>)

  function Items(arg: CookieArg): seq<JsValue> {
    match arg
    case Single(v) => [v]
    case List(vs) => vs
  }

  function Strings(l: seq<string>): seq<JsValue> {
    seq(|l|, k requires 0 <= k < |l| => Str(l[k]))
  }

  /** An entry formatCookie keeps: a string that is not blank. */
  predicate Kept(v: JsValue) {
    v.Str? && Trim(v.s) != ""
  }

  /** "; " starts at index i of c. */
  predicate SemiSpaceAt(c: string, i: int) {
    0 <= i && i + 1 < |c| && c[i] == ';' && c[i + 1] == ' '
  }

  /** cookie.split('; ')[0]: the prefix of c before the first "; ", or all of c. */
  function MainPart(c: string): (r: string)
    ensures r <= c
    ensures forall i :: 0 <= i < |r| ==> !SemiSpaceAt(c, i)
    ensures |r| < |c| ==> SemiSpaceAt(c, |r|)
  {
    if |c| < 2 then c
    else if c[0] == ';' && c[1] == ' ' then ""
    else
      var rest := MainPart(c[1..]);
      assert forall i :: 0 <= i < |rest| ==> !SemiSpaceAt(c[1..], i) by {
      }
      assert forall i :: 1 <= i < |rest| + 1 ==> SemiSpaceAt(c, i) == SemiSpaceAt(c[1..], i - 1);
      [c[0]] + rest
  }

  /** The parts formatCookie pushes, in order. */
  function MainParts(vs: seq<JsValue>): seq<string> {
    if vs == [] then []
    else
      var last := vs[|vs| - 1];
      MainParts(vs[..|vs| - 1]) + (if Kept(last) then [MainPart(last.s)] else [])
  }

  /** The value formatCookie returns. */
  function Credential(arg: CookieArg): string {
    Join(MainParts(Items(arg)), ";")
  }

  method FormatCookie(cookies: CookieArg) returns (r: string)
    ensures r == Credential(cookies)
  {
    var items := match cookies
      case Single(v) => [v]
      case List(vs) => vs;
    if |items| == 0 {
      return "";
    }
    var mainCookies := [];
    for i := 0 to |items|
      invariant mainCookies == MainParts(items[..i])
    {
      var cookie := items[i];
      if cookie.Str? && Trim(cookie.s) != "" {
        mainCookies := mainCookies + [MainPart(cookie.s)];
      }
      assert items[..i + 1][..i] == items[..i];
    }
    assert items[..|items|] == items;
    r := Join(mainCookies, ";");
  }

  /** MainPart is exactly the text before the first "; ". */
  lemma MainPartBeforeFirst(c: string, i: nat)
    requires SemiSpaceAt(c, i)
    requires forall j :: 0 <= j < i ==> !SemiSpaceAt(c, j)
    ensures MainPart(c) == c[..i]
  {
  }

  /** A single entry contributes its MainPart when it is a non-blank string
      and nothing otherwise. */
  lemma MainPartsOfOne(v: JsValue)
    ensures MainParts([v]) == if Kept(v) then [MainPart(v.s)] else []
  {
    assert [v][..0] == [];
  }

  /** The contributions of a list are those of its parts, in order. */
  lemma {:induction false} MainPartsConcat(a: seq<JsValue>, b: seq<JsValue>)
    ensures MainParts(a + b) == MainParts(a) + MainParts(b)
  {
    if b != [] {
      var b' := b[..|b| - 1];
      MainPartsConcat(a, b');
      assert (a + b)[..|a + b| - 1] == a + b';
    } else {
      assert a + b == a;
    }
  }

  /** When no kept part contains ';', splitting the credential at ';' gives the
      kept parts back: the join is lossless. */
  lemma CredentialSplitsBack(arg: CookieArg)
    requires MainParts(Items(arg)) != []
    requires forall k :: 0 <= k < |MainParts(Items(arg))| ==> ';' !in MainParts(Items(arg))[k]
    ensures Split(Credential(arg), ';') == MainParts(Items(arg))
  {
    SplitJoin(MainParts(Items(arg)), ';');
  }

  /** A non-array argument is treated as a one-element list, and an empty
      list gives the empty credential. */
  lemma CredentialOfSingleAndEmpty(v: JsValue)
    ensures Credential(Single(v)) == Credential(List([v]))
    ensures Credential(List([])) == ""
    ensures Credential(Single(v)) == if Kept(v) then MainPart(v.s) else ""
  {
    assert [v][..0] == [];
  }

  /** A string entry that starts with text and has its first "; " at index i
      contributes exactly c[..i]. */
  lemma EntryContributesPrefix(c: string, i: nat)
    requires c != [] && !IsSpace(c[0])
    requires SemiSpaceAt(c, i) && forall j :: 0 <= j < i ==> !SemiSpaceAt(c, j)
    ensures MainParts([Str(c)]) == [c[..i]]
  {
    TrimEmptyIffBlank(c);
    assert Kept(Str(c));
    MainPartBeforeFirst(c, i);
    MainPartsOfOne(Str(c));
  }

  /** The entries "foo=1; Path=/" and "bar=2; HttpOnly" contribute their name=value. */
  lemma ExampleEntry(c: string, x: string)
    requires (c == "foo=1; Path=/" && x == "foo=1") || (c == "bar=2; HttpOnly" && x == "bar=2")
    ensures MainParts([Str(c)]) == [x]
  {
    if c == "foo=1; Path=/" {
      EntryContributesPrefix(c, 5);
      assert c[..5] == "foo=1";
    } else {
      EntryContributesPrefix(c, 5);
      assert c[..5] == "bar=2";
    }
  }

  /** Two kept entries give their main parts joined with ';'. */
  lemma CredentialOfPair(a: string, b: string, x: string, y: string)
    requires MainParts([Str(a)]) == [x] && MainParts([Str(b)]) == [y]
    ensures Credential(List([Str(a), Str(b)])) == x + ";" + y
  {
    var vs := [Str(a), Str(b)];
    assert MainParts(vs) == [x, y] by {
      MainPartsConcat([Str(a)], [Str(b)]);
      assert [Str(a)] + [Str(b)] == vs;
    }
    assert Join([x, y], ";") == x + ";" + y by {
      assert [x, y][..1] == [x];
    }
  }

  /** The two-entry list ["foo=1; Path=/", "bar=2; HttpOnly"] gives "foo=1;bar=2". */
  lemma CredentialOfTwoEntries(foo: string, bar: string)
    requires foo == "foo=1; Path=/" && bar == "bar=2; HttpOnly"
    ensures Credential(List([Str(foo), Str(bar)])) == "foo=1;bar=2"
  {
    var x, y := "foo=1", "bar=2";
    ExampleEntry(foo, x);
    ExampleEntry(bar, y);
    CredentialOfPair(foo, bar, x, y);
    assert x + ";" + y == "foo=1;bar=2";
  }

  /** The bare string "a=b; Path=/" on its own (not in an array) gives "a=b". */
  lemma CredentialOfOneString(ab: string)
    requires ab == "a=b; Path=/"
    ensures Credential(Single(Str(ab))) == "a=b"
  {
    EntryContributesPrefix(ab, 3);
    assert ab[..3] == "a=b";
  }
}
