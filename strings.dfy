/** The handful of Python `str` operations the core uses, on `seq<char>`. */
module Strings {
  import opened Wrappers

  predicate StartsWith(s: string, prefix: string) {
    |prefix| <= |s| && s[..|prefix|] == prefix
  }

  /** Index of the first occurrence of `sub` in `s` (`s.find(sub)` when it is not -1). */
  function IndexOf(s: string, sub: string): (r: Option<nat>)
    ensures r.Some? ==> r.value + |sub| <= |s| && s[r.value..r.value + |sub|] == sub
    ensures r.Some? ==> StartsWith(s[r.value..], sub)
    ensures r.Some? ==> forall j :: 0 <= j < r.value ==> !StartsWith(s[j..], sub)
    ensures r.None? ==> forall j :: 0 <= j <= |s| ==> !StartsWith(s[j..], sub)
  {
    IndexFrom(s, sub, 0)
  }

  /** The first occurrence of `sub` in `s` at or after position `i`. */
  function IndexFrom(s: string, sub: string, i: nat): (r: Option<nat>)
    requires i <= |s|
    ensures r.Some? ==> i <= r.value && r.value + |sub| <= |s| && s[r.value..r.value + |sub|] == sub
    ensures r.Some? ==> StartsWith(s[r.value..], sub)
    ensures r.Some? ==> forall j :: i <= j < r.value ==> !StartsWith(s[j..], sub)
    ensures r.None? ==> forall j :: i <= j <= |s| ==> !StartsWith(s[j..], sub)
    decreases |s| - i
  {
    if StartsWith(s[i..], sub) then
      assert s[i..][..|sub|] == s[i..i + |sub|];
      Some(i)
    else if i == |s| then None
    else IndexFrom(s, sub, i + 1)
  }

  /** `sub in s` */
  predicate Contains(s: string, sub: string) {
    IndexOf(s, sub).Some?
  }

  /** For a one-character needle, `sub in s` is membership. */
  lemma ContainsChar(s: string, c: char)
    ensures Contains(s, [c]) <==> c in s
  {
    if c in s {
      var j :| 0 <= j < |s| && s[j] == c;
      assert StartsWith(s[j..], [c]);
    }
    if Contains(s, [c]) {
      var i := IndexOf(s, [c]).value;
      assert s[i] == s[i..i + 1][0] == c;
    }
  }

  /** `s.split(sep, 1)` when `sep in s`: the text before and after the first `sep`. */
  function SplitOnce(s: string, sep: string): (r: Option<(string, string)>)
    requires |sep| > 0
    ensures r.Some? <==> Contains(s, sep)
    ensures r.Some? ==> s == r.value.0 + sep + r.value.1 && !Contains(r.value.0, sep)
  {
    match IndexOf(s, sep)
    case None => None
    case Some(i) =>
      var before, after := s[..i], s[i + |sep|..];
      assert s == before + sep + after;
      NoEarlierOccurrence(s, sep, i);
      Some((before, after))
  }

  lemma NoEarlierOccurrence(s: string, sep: string, i: nat)
    requires i <= |s| && |sep| > 0
    requires forall j :: 0 <= j < i ==> !StartsWith(s[j..], sep)
    ensures !Contains(s[..i], sep)
  {
    var p := s[..i];
    forall j | 0 <= j <= |p| ensures !StartsWith(p[j..], sep) {
      if j + |sep| <= |p| {
        assert p[j..][..|sep|] == s[j..][..|sep|];
      }
    }
  }

  /** A separator none of whose proper prefixes is also a suffix: "://" and any one character. */
  predicate Unbordered(sep: string) {
    forall k :: 0 < k < |sep| ==> sep[..k] != sep[|sep| - k..]
  }

  /** The first occurrence of an unbordered separator after a text without it is right after that text. */
  lemma IndexOfAfter(p: string, sep: string, u: string)
    requires |sep| > 0 && Unbordered(sep) && !Contains(p, sep)
    ensures IndexOf(p + sep + u, sep) == Some(|p|)
  {
    var s := p + sep + u;
    forall j | 0 <= j < |p| ensures !StartsWith(s[j..], sep) {
      var q := p[j..];
      NotAtStart(q, sep, u);
      assert s[j..] == q + sep + u;
    }
    assert s[|p|..][..|sep|] == sep;
  }

  lemma NotAtStart(p: string, sep: string, u: string)
    requires |sep| > 0 && Unbordered(sep) && !Contains(p, sep) && |p| > 0
    ensures !StartsWith(p + sep + u, sep)
  {
    var s := p + sep + u;
    if |p| >= |sep| {
      assert !StartsWith(p[0..], sep);
      assert p[..|sep|] == s[..|sep|];
    } else {
      var k := |sep| - |p|;
      assert sep[..k] != sep[|sep| - k..];
      assert s[..|sep|] == p + sep[..k];
    }
  }

  /** The scheme separator of a uri has no border. */
  lemma SchemeSeparatorUnbordered()
    ensures Unbordered("://")
  {
    var sep := "://";
    forall k | 0 < k < |sep| ensures sep[..k] != sep[|sep| - k..] {
      assert sep[..k][0] == ':' && sep[|sep| - k..][0] == '/';
    }
  }

  /** `"/sse"` has no proper prefix that is also a suffix. */
  lemma SseSegmentUnbordered()
    ensures Unbordered("/sse")
  {
    var sep := "/sse";
    forall k | 0 < k < |sep| ensures sep[..k] != sep[|sep| - k..] {
      assert sep[..k][0] == '/' && sep[|sep| - k..][0] != '/';
    }
  }

  /** A text without `pat` keeps that property when its first character is dropped. */
  lemma NotContainsTail(s: string, pat: string)
    requires s != [] && !Contains(s, pat)
    ensures !Contains(s[1..], pat)
  {
  }

  /** `p + sep + u` splits back into `p` and `u` at its first `sep`. */
  lemma SplitOnceJoin(p: string, sep: string, u: string)
    requires |sep| > 0 && Unbordered(sep) && !Contains(p, sep)
    ensures SplitOnce(p + sep + u, sep) == Some((p, u))
  {
    IndexOfAfter(p, sep, u);
    var s := p + sep + u;
    assert s[..|p|] == p;
    assert s[|p| + |sep|..] == u;
  }

  /** `s.replace(pat, rep)` for a non-empty pattern: left to right, non-overlapping. */
  function Replace(s: string, pat: string, rep: string): string
    requires |pat| > 0
    decreases |s|
  {
    if StartsWith(s, pat) then rep + Replace(s[|pat|..], pat, rep)
    else if |s| == 0 then ""
    else [s[0]] + Replace(s[1..], pat, rep)
  }

  /** A text without `pat` is left as it is. */
  lemma {:induction false} ReplaceAbsent(s: string, pat: string, rep: string)
    requires |pat| > 0 && !Contains(s, pat)
    ensures Replace(s, pat, rep) == s
    decreases |s|
  {
    if s != [] {
      assert s[0..] == s;
      NotContainsTail(s, pat);
      ReplaceAbsent(s[1..], pat, rep);
      assert s == [s[0]] + s[1..];
    }
  }
  /** Replacing in `p + pat + u`, where `p` holds no `pat`, leaves `p` as it is, replaces the
      first occurrence right after it, and goes on in `u`. */
  lemma {:induction false} ReplaceAfter(p: string, pat: string, rep: string, u: string)
    requires |pat| > 0 && Unbordered(pat) && !Contains(p, pat)
    ensures Replace(p + pat + u, pat, rep) == p + rep + Replace(u, pat, rep)
    decreases |p|
  {
    var s := p + pat + u;
    if p == [] {
      ReplaceAtStart(pat, rep, u);
    } else {
      NotAtFront(p, pat, u);
      NotContainsTail(p, pat);
      ReplaceSkip(s, pat, rep);
      var t := p[1..];
      assert s[1..] == t + pat + u;
      ReplaceAfter(t, pat, rep, u);
      JoinFront(p, rep + Replace(u, pat, rep));
    }
  }

  lemma JoinFront(p: string, v: string)
    requires p != []
    ensures [p[0]] + (p[1..] + v) == p + v
  {
    assert p == [p[0]] + p[1..];
  }

  lemma ReplaceAtStart(pat: string, rep: string, u: string)
    requires |pat| > 0
    ensures Replace(pat + u, pat, rep) == rep + Replace(u, pat, rep)
  {
    var s := pat + u;
    assert s[..|pat|] == pat && s[|pat|..] == u;
  }

  /** An unbordered `pat` after a non-empty text without it does not start the whole. */
  lemma NotAtFront(p: string, pat: string, u: string)
    requires |pat| > 0 && Unbordered(pat) && !Contains(p, pat) && p != []
    ensures !StartsWith(p + pat + u, pat)
  {
    IndexOfAfter(p, pat, u);
    assert (p + pat + u)[0..] == p + pat + u;
  }

  /** Where `pat` does not start the text, its first character is kept. */
  lemma ReplaceSkip(s: string, pat: string, rep: string)
    requires |pat| > 0 && s != [] && !StartsWith(s, pat)
    ensures Replace(s, pat, rep) == [s[0]] + Replace(s[1..], pat, rep)
  {
  }



  /** ASCII case mapping (`str.lower()` / `str.upper()` restricted to ASCII letters). */
  function LowerChar(c: char): char {
    if 'A' <= c <= 'Z' then (c as int + 32) as char else c
  }

  function UpperChar(c: char): char {
    if 'a' <= c <= 'z' then (c as int - 32) as char else c
  }

  function Lower(s: string): (r: string)
    ensures |r| == |s| && forall i :: 0 <= i < |s| ==> r[i] == LowerChar(s[i])
  {
    seq(|s|, i requires 0 <= i < |s| => LowerChar(s[i]))
  }

  function Upper(s: string): (r: string)
    ensures |r| == |s| && forall i :: 0 <= i < |s| ==> r[i] == UpperChar(s[i])
  {
    seq(|s|, i requires 0 <= i < |s| => UpperChar(s[i]))
  }

  /** The characters for which Python's `str.isspace()` holds. */
  predicate IsSpace(c: char) {
    var n := c as int;
    n == 0x20 || (0x09 <= n <= 0x0D) || (0x1C <= n <= 0x1F) || n == 0x85 || n == 0xA0
    || n == 0x1680 || (0x2000 <= n <= 0x200A) || n == 0x2028 || n == 0x2029
    || n == 0x202F || n == 0x205F || n == 0x3000
  }

  function StripLeft(s: string): (r: string)
    ensures |r| <= |s|
  {
    if s != [] && IsSpace(s[0]) then StripLeft(s[1..]) else s
  }

  /** `StripLeft` removes white space from the front. */
  lemma {:induction false} StripLeftSpaces(s: string)
    ensures StripLeft(s) == s[|s| - |StripLeft(s)|..]
    ensures StripLeft(s) != [] ==> !IsSpace(StripLeft(s)[0])
    ensures forall i :: 0 <= i < |s| - |StripLeft(s)| ==> IsSpace(s[i])
    decreases |s|
  {
    if s != [] && IsSpace(s[0]) {
      StripLeftSpaces(s[1..]);
      assert forall i :: 1 <= i < |s| - |StripLeft(s)| ==> s[i] == s[1..][i - 1];
    }
  }

  function StripRight(s: string): (r: string)
    ensures |r| <= |s|
  {
    if s != [] && IsSpace(s[|s| - 1]) then StripRight(s[..|s| - 1]) else s
  }

  /** `StripRight` removes white space from the back. */
  lemma {:induction false} StripRightSpaces(s: string)
    ensures StripRight(s) == s[..|StripRight(s)|]
    ensures StripRight(s) != [] ==> !IsSpace(StripRight(s)[|StripRight(s)| - 1])
    ensures forall i :: |StripRight(s)| <= i < |s| ==> IsSpace(s[i])
    decreases |s|
  {
    if s != [] && IsSpace(s[|s| - 1]) {
      StripRightSpaces(s[..|s| - 1]);
    }
  }

  /** `s.strip()` */
  function Strip(s: string): string {
    StripRight(StripLeft(s))
  }

  /** `Strip(s)` is empty exactly when every character of `s` is white space. */
  lemma StripEmpty(s: string)
    ensures Strip(s) == [] <==> forall i :: 0 <= i < |s| ==> IsSpace(s[i])
  {
    var l := StripLeft(s);
    StripLeftSpaces(s);
    StripRightSpaces(l);
    assert forall i :: 0 <= i < |l| ==> l[i] == s[|s| - |l| + i];
  }

  /** `s.split(sep)` for a one-character separator. */
  function SplitOn(s: string, sep: char): (r: seq<string>)
    ensures |r| > 0
    decreases |s|
  {
    if |s| == 0 then [""]
    else
      var rest := SplitOn(s[1..], sep);
      if s[0] == sep then [""] + rest
      else [[s[0]] + rest[0]] + rest[1..]
  }

  /** The first field of `s.split(sep)` is a prefix of `s`. */
  lemma {:induction false} SplitOnFirstPrefix(s: string, sep: char)
    ensures StartsWith(s, SplitOn(s, sep)[0])
    decreases |s|
  {
    if |s| > 0 && s[0] != sep {
      SplitOnFirstPrefix(s[1..], sep);
      var w := SplitOn(s[1..], sep)[0];
      assert SplitOn(s, sep)[0] == [s[0]] + w;
      assert s == [s[0]] + s[1..];
    }
  }

  /** Every prefix of a contained string is contained. */
  lemma ContainsPrefix(s: string, sub: string, w: string)
    requires Contains(s, sub) && StartsWith(sub, w)
    ensures Contains(s, w)
  {
    var i := IndexOf(s, sub).value;
    assert s[i..][..|w|] == sub[..|w|];
    assert StartsWith(s[i..], w);
  }

  /** Lower-casing keeps a prefix a prefix. */
  lemma LowerPrefix(s: string, w: string)
    requires StartsWith(s, w)
    ensures StartsWith(Lower(s), Lower(w))
  {
    assert Lower(s)[..|w|] == Lower(w);
  }

  /** Joining at a separator that neither left part contains can be undone. */
  lemma SplitAtFirst(c: char, x: string, a: string, y: string, b: string)
    requires c !in x && c !in y
    ensures x + [c] + a == y + [c] + b ==> x == y && a == b
  {
    var s := x + [c] + a;
    if s == y + [c] + b {
      assert s[|x|] == c && s[|y|] == c;
      assert forall k :: 0 <= k < |x| ==> s[k] == x[k];
      assert forall k :: 0 <= k < |y| ==> s[k] == y[k];
      assert x == s[..|x|] && y == s[..|y|];
      assert a == s[|x| + 1..] && b == s[|y| + 1..];
    }
  }

  /** `sep.join(parts)` */
  function Join(sep: string, parts: seq<string>): string {
    if |parts| == 0 then ""
    else if |parts| == 1 then parts[0]
    else parts[0] + sep + Join(sep, parts[1..])
  }

  function DigitChar(d: nat): (c: char)
    requires d < 10
    ensures '0' <= c <= '9' && c as int - '0' as int == d
  {
    (d + '0' as int) as char
  }

  /** `str(n)` for a natural number. */
  function NatToString(n: nat): (r: string)
    ensures |r| > 0
    ensures forall i :: 0 <= i < |r| ==> '0' <= r[i] <= '9'
  {
    if n < 10 then [DigitChar(n)] else NatToString(n / 10) + [DigitChar(n % 10)]
  }

  /** `str(i)` for an integer. */
  function IntToString(i: int): string {
    if i < 0 then "-" + NatToString(-i) else NatToString(i)
  }

  lemma {:induction false} NatToStringInjective(a: nat, b: nat)
    requires NatToString(a) == NatToString(b)
    ensures a == b
  {
    var sa, sb := NatToString(a), NatToString(b);
    if a >= 10 && b >= 10 {
      assert sa[|sa| - 1] == DigitChar(a % 10) && sb[|sb| - 1] == DigitChar(b % 10);
      assert sa[..|sa| - 1] == NatToString(a / 10);
      assert sb[..|sb| - 1] == NatToString(b / 10);
      NatToStringInjective(a / 10, b / 10);
    } else if a < 10 && b < 10 {
      assert sa[0] == DigitChar(a) && sb[0] == DigitChar(b);
    }
  }
}
