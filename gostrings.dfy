/** The parts of Go's `strings` and `unicode` packages that the command-line layer relies on. */
module GoStrings {

  /** strings.HasPrefix */
  predicate HasPrefix(s: string, prefix: string) {
    prefix <= s
  }

  /** strings.Join: the elements with `sep` between consecutive ones. */
  function Join(elems: seq<string>, sep: string): string
  {
    if |elems| == 0 then ""
    else if |elems| == 1 then elems[0]
    else elems[0] + sep + Join(elems[1..], sep)
  }

  /** Position of the first occurrence of `c` in `s`. */
  function FirstIndex(s: string, c: char): (i: nat)
    requires c in s
    ensures i < |s| && s[i] == c && c !in s[..i]
  {
    if s[0] == c then 0 else 1 + FirstIndex(s[1..], c)
  }

  /** strings.Split with a one-character separator: the maximal runs between occurrences of `c`. */
  function SplitOn(s: string, c: char): (parts: seq<string>)
    ensures |parts| >= 1
    decreases |s|
  {
    if c !in s then [s]
    else
      var i := FirstIndex(s, c);
      [s[..i]] + SplitOn(s[i + 1..], c)
  }

  lemma {:induction false} FirstIndexAfter(x: string, c: char, y: string)
    requires c !in x
    ensures c in x + [c] + y && FirstIndex(x + [c] + y, c) == |x|
  {
    var s := x + [c] + y;
    assert s[|x|] == c;
    if |x| > 0 {
      assert s[1..] == x[1..] + [c] + y;
      FirstIndexAfter(x[1..], c, y);
    }
  }

  /** Splitting a joined list at its separator gives the list back, provided no element
      contains the separator. */
  lemma {:induction false} SplitJoin(elems: seq<string>, c: char)
    requires |elems| >= 1
    requires forall k :: 0 <= k < |elems| ==> c !in elems[k]
    ensures SplitOn(Join(elems, [c]), c) == elems
  {
    if |elems| > 1 {
      var head, rest := elems[0], Join(elems[1..], [c]);
      var s := head + [c] + rest;
      assert Join(elems, [c]) == s;
      FirstIndexAfter(head, c, rest);
      assert s[..|head|] == head;
      assert s[|head| + 1..] == rest;
      assert SplitOn(s, c) == [head] + SplitOn(rest, c);
      SplitJoin(elems[1..], c);
      assert elems == [head] + elems[1..];
    }
  }

  /** Joining two non-empty lists is joining each and putting the separator between them. */
  lemma {:induction false} JoinAppend(xs: seq<string>, ys: seq<string>, sep: string)
    requires |xs| >= 1 && |ys| >= 1
    ensures Join(xs + ys, sep) == Join(xs, sep) + sep + Join(ys, sep)
  {
    if |xs| == 1 {
      assert (xs + ys)[0] == xs[0] && (xs + ys)[1..] == ys;
    } else {
      JoinAppend(xs[1..], ys, sep);
      assert (xs + ys)[0] == xs[0] && (xs + ys)[1..] == xs[1..] + ys;
      assert Join(xs + ys, sep) == xs[0] + sep + (Join(xs[1..], sep) + sep + Join(ys, sep));
    }
  }

  /** unicode.IsSpace: the characters with Unicode's White_Space property. */
  predicate IsSpace(c: char) {
    || c == ' ' || c == '\t' || c == '\n' || c == '\r'
    || c == '\U{000B}' || c == '\U{000C}' || c == '\U{0085}' || c == '\U{00A0}'
    || c == '\U{1680}' || ('\U{2000}' <= c <= '\U{200A}')
    || c == '\U{2028}' || c == '\U{2029}' || c == '\U{202F}' || c == '\U{205F}' || c == '\U{3000}'
  }

  predicate AllSpace(s: string) {
    forall k :: 0 <= k < |s| ==> IsSpace(s[k])
  }

  /** Number of white-space characters at the start of `s`. */
  function LeadingSpaces(s: string): (n: nat)
    ensures n <= |s| && AllSpace(s[..n])
    ensures n < |s| ==> !IsSpace(s[n])
  {
    if |s| > 0 && IsSpace(s[0]) then
      var n := 1 + LeadingSpaces(s[1..]);
      assert s[..n] == [s[0]] + s[1..][..n - 1];
      n
    else 0
  }

  /** strings.TrimLeftFunc(s, unicode.IsSpace) */
  function TrimLeft(s: string): string {
    if |s| > 0 && IsSpace(s[0]) then TrimLeft(s[1..]) else s
  }

  /** strings.TrimRightFunc(s, unicode.IsSpace) */
  function TrimRight(s: string): string {
    if |s| > 0 && IsSpace(s[|s| - 1]) then TrimRight(s[..|s| - 1]) else s
  }

  /** strings.TrimSpace */
  function TrimSpace(s: string): string {
    TrimRight(TrimLeft(s))
  }

  /** unicode.ToLower on the ASCII range. */
  function LowerChar(c: char): char {
    if 'A' <= c <= 'Z' then (c as int + 32) as char else c
  }

  /** strings.ToLower, character by character. */
  function ToLower(s: string): (r: string)
    ensures |r| == |s|
    ensures forall k :: 0 <= k < |s| ==> r[k] == LowerChar(s[k])
  {
    seq(|s|, k requires 0 <= k < |s| => LowerChar(s[k]))
  }

  /** Trimming the left side drops exactly the leading white space. */
  lemma {:induction false} TrimLeftDropsLeadingSpaces(s: string)
    ensures TrimLeft(s) == s[LeadingSpaces(s)..]
  {
    if |s| > 0 && IsSpace(s[0]) {
      TrimLeftDropsLeadingSpaces(s[1..]);
      assert s[1..][LeadingSpaces(s[1..])..] == s[1 + LeadingSpaces(s[1..])..];
    }
  }

  /** Trimming the right side leaves "y" exactly when the text is "y" followed by white space. */
  lemma {:induction false} TrimRightIsY(u: string)
    ensures TrimRight(u) == "y" <==> |u| >= 1 && u[0] == 'y' && AllSpace(u[1..])
    decreases |u|
  {
    if |u| > 0 && IsSpace(u[|u| - 1]) {
      var v := u[..|u| - 1];
      TrimRightIsY(v);
      if |u| >= 2 {
        assert u[0] == v[0];
        assert u[1..] == v[1..] + [u[|u| - 1]];
        if AllSpace(v[1..]) {
          forall k | 0 <= k < |u[1..]| ensures IsSpace(u[1..][k]) {
            if k < |v[1..]| { assert u[1..][k] == v[1..][k]; }
          }
        }
        if AllSpace(u[1..]) {
          forall k | 0 <= k < |v[1..]| ensures IsSpace(v[1..][k]) {
            assert v[1..][k] == u[1..][k];
          }
        }
      }
    } else if |u| >= 2 {
      assert u[1..][|u| - 2] == u[|u| - 1];
    }
  }

  lemma LowerCharKeepsSpace(c: char)
    ensures IsSpace(LowerChar(c)) <==> IsSpace(c)
  {
    if 'A' <= c <= 'Z' {
      assert 'a' <= LowerChar(c) <= 'z';
    }
  }

  /** Lower-casing never turns a character into white space or out of it. */
  lemma {:induction false} LowerKeepsSpaces(s: string)
    ensures forall k :: 0 <= k < |s| ==> (IsSpace(ToLower(s)[k]) <==> IsSpace(s[k]))
    ensures LeadingSpaces(ToLower(s)) == LeadingSpaces(s)
    decreases |s|
  {
    forall k | 0 <= k < |s| ensures IsSpace(ToLower(s)[k]) <==> IsSpace(s[k]) {
      LowerCharKeepsSpace(s[k]);
    }
    if |s| > 0 {
      LowerKeepsSpaces(s[1..]);
      assert ToLower(s)[1..] == ToLower(s[1..]);
    }
  }

  /** Trimming the left of a lower-cased text drops as many characters as trimming the original. */
  lemma TrimLeftLower(s: string)
    ensures TrimLeft(ToLower(s)) == ToLower(s)[LeadingSpaces(s)..]
  {
    LowerKeepsSpaces(s);
    TrimLeftDropsLeadingSpaces(ToLower(s));
  }

  /** Lower-casing keeps a stretch of text all white space, or not. */
  lemma AllSpaceLower(s: string, n: nat)
    requires n <= |s|
    ensures AllSpace(ToLower(s)[n..]) <==> AllSpace(s[n..])
  {
    LowerKeepsSpaces(s);
    assert forall k :: 0 <= k < |s| - n ==> ToLower(s)[n..][k] == ToLower(s)[n + k] && s[n..][k] == s[n + k];
  }
}
