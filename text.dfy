/**
 * The string operations the provider relies on: Python's `str.strip()` with no
 * argument, `" ".join(parts)` and, as the inverse of the latter, `str.split(" ")`.
 */
module Text {

  /** Python's `str.isspace()` for one character: exactly the characters `strip()` removes. */
  predicate IsSpace(c: char) {
    || ('\t' <= c <= '\r')
    || ('\U{1C}' <= c <= '\U{1F}')
    || c == ' '
    || c == '\U{85}'
    || c == '\U{A0}'
    || c == '\U{1680}'
    || ('\U{2000}' <= c <= '\U{200A}')
    || c == '\U{2028}'
    || c == '\U{2029}'
    || c == '\U{202F}'
    || c == '\U{205F}'
    || c == '\U{3000}'
  }

  predicate AllSpace(s: string) {
    forall k :: 0 <= k < |s| ==> IsSpace(s[k])
  }

  /** Neither end of `r` is whitespace. */
  predicate Unpadded(r: string) {
    r == [] || (!IsSpace(r[0]) && !IsSpace(r[|r| - 1]))
  }

  /** `r` is `s` with some all-whitespace prefix and suffix cut off, and `r` is itself unpadded. */
  ghost predicate IsStripOf(s: string, r: string) {
    exists i, j :: 0 <= i <= j <= |s| && r == s[i..j] && AllSpace(s[..i]) && AllSpace(s[j..]) && Unpadded(r)
  }

  /** The number of whitespace characters at the start of `s`. */
  function LeadingSpaces(s: string): (n: nat)
    ensures n <= |s|
    ensures AllSpace(s[..n])
    ensures n < |s| ==> !IsSpace(s[n])
  {
    if s != [] && IsSpace(s[0]) then
      var n := 1 + LeadingSpaces(s[1..]);
      assert forall k :: 1 <= k < n ==> s[..n][k] == s[1..][..n - 1][k - 1];
      n
    else 0
  }

  /** The number of whitespace characters at the end of `s`. */
  function TrailingSpaces(s: string): (n: nat)
    ensures n <= |s|
    ensures AllSpace(s[|s| - n..])
    ensures n < |s| ==> !IsSpace(s[|s| - 1 - n])
  {
    if s != [] && IsSpace(s[|s| - 1]) then
      var init := s[..|s| - 1];
      var m := TrailingSpaces(init);
      assert s[|s| - (m + 1)..] == init[|init| - m..] + [s[|s| - 1]];
      AllSpaceAppend(init[|init| - m..], [s[|s| - 1]]);
      assert m + 1 < |s| ==> s[|s| - 1 - (m + 1)] == init[|init| - 1 - m];
      m + 1
    else 0
  }

  /** Python's `s.strip()`. */
  function Strip(s: string): (r: string)
    ensures IsStripOf(s, r) && Unpadded(r)
    ensures r == [] <==> AllSpace(s)
  {
    var i := LeadingSpaces(s);
    if i == |s| then
      assert s[..|s|] == s && s[|s|..] == [] && s[|s|..|s|] == [];
      []
    else
      var j := |s| - TrailingSpaces(s);
      assert i < j;
      var r := s[i..j];
      assert r[0] == s[i] && r[|r| - 1] == s[j - 1];
      assert !AllSpace(s) by { assert !IsSpace(s[i]); }
      assert r == s[i..j] && AllSpace(s[..i]) && AllSpace(s[j..]) && Unpadded(r);
      r
  }

  /** Any cut with the properties `IsStripOf` names is the one `Strip` makes: they determine the result. */
  lemma StripIsUnique(s: string, i: nat, j: nat)
    requires i <= j <= |s| && AllSpace(s[..i]) && AllSpace(s[j..]) && Unpadded(s[i..j])
    ensures s[i..j] == Strip(s)
  {
    if i == j {
      assert s == s[..i] + s[j..];
      AllSpaceAppend(s[..i], s[j..]);
    } else {
      assert s[i..j][0] == s[i] && s[i..j][j - i - 1] == s[j - 1];
      LeadingSpacesAt(s, i);
      TrailingSpacesAt(s, j);
      assert LeadingSpaces(s) != |s| && |s| - TrailingSpaces(s) == j;
    }
  }

  lemma AllSpaceAppend(a: string, b: string)
    requires AllSpace(a) && AllSpace(b)
    ensures AllSpace(a + b)
  {
    forall k | 0 <= k < |a + b| ensures IsSpace((a + b)[k]) {
      if k >= |a| { assert (a + b)[k] == b[k - |a|]; }
    }
  }

  /** A whitespace prefix followed by a non-space character is exactly the leading whitespace. */
  lemma LeadingSpacesAt(s: string, i: nat)
    requires i < |s| && AllSpace(s[..i]) && !IsSpace(s[i])
    ensures LeadingSpaces(s) == i
  {
    var n := LeadingSpaces(s);
  }

  /** A whitespace suffix preceded by a non-space character is exactly the trailing whitespace. */
  lemma TrailingSpacesAt(s: string, j: nat)
    requires 0 < j <= |s| && AllSpace(s[j..]) && !IsSpace(s[j - 1])
    ensures TrailingSpaces(s) == |s| - j
  {
    var t := TrailingSpaces(s);
  }

  predicate NoSpace(w: string) {
    ' ' !in w
  }

  /** Python's `" ".join(parts)`. */
  function JoinSpace(parts: seq<string>): (r: string)
    ensures r == "" <==> parts == [] || parts == [""]
  {
    if |parts| == 0 then ""
    else if |parts| == 1 then parts[0]
    else JoinSpace(parts[..|parts| - 1]) + " " + parts[|parts| - 1]
  }

  /** Python's `s.split(" ")`: cut at every single space, keeping empty pieces. */
  function SplitSpace(s: string): (r: seq<string>)
    ensures |r| >= 1
  {
    if s == [] then [""]
    else
      var r := SplitSpace(s[..|s| - 1]);
      var c := s[|s| - 1];
      if c == ' ' then r + [""] else r[..|r| - 1] + [r[|r| - 1] + [c]]
  }

  lemma {:induction false} SplitSpaceThenWord(t: string, w: string)
    requires NoSpace(w)
    ensures SplitSpace(t + " " + w) == SplitSpace(t) + [w]
    decreases |w|
  {
    if w == [] {
      assert t + " " + w == t + " ";
      assert (t + " ")[..|t + " "| - 1] == t;
    } else {
      var w' := w[..|w| - 1];
      var s := t + " " + w;
      assert s[..|s| - 1] == t + " " + w';
      assert s[|s| - 1] == w[|w| - 1];
      assert w[|w| - 1] in w;
      assert NoSpace(w') by { assert forall k :: 0 <= k < |w'| ==> w'[k] == w[k]; }
      SplitSpaceThenWord(t, w');
      assert w' + [w[|w| - 1]] == w;
    }
  }

  lemma {:induction false} SplitSpaceWord(w: string)
    requires NoSpace(w)
    ensures SplitSpace(w) == [w]
    decreases |w|
  {
    if w != [] {
      var w' := w[..|w| - 1];
      assert w[|w| - 1] in w;
      assert NoSpace(w') by { assert forall k :: 0 <= k < |w'| ==> w'[k] == w[k]; }
      SplitSpaceWord(w');
      assert w' + [w[|w| - 1]] == w;
    }
  }

  /** Joining words that hold no space and splitting again gives the words back. */
  lemma {:induction false} SplitJoinSpace(parts: seq<string>)
    requires |parts| >= 1
    requires forall k :: 0 <= k < |parts| ==> NoSpace(parts[k])
    ensures SplitSpace(JoinSpace(parts)) == parts
    decreases |parts|
  {
    if |parts| == 1 {
      SplitSpaceWord(parts[0]);
    } else {
      var init := parts[..|parts| - 1];
      SplitJoinSpace(init);
      SplitSpaceThenWord(JoinSpace(init), parts[|parts| - 1]);
      assert init + [parts[|parts| - 1]] == parts;
    }
  }

  /** When every part after the first holds no space, splitting the join gives the first part's pieces, then the other parts. */
  lemma {:induction false} SplitJoinSpaceHead(parts: seq<string>)
    requires |parts| >= 1
    requires forall k :: 1 <= k < |parts| ==> NoSpace(parts[k])
    ensures SplitSpace(JoinSpace(parts)) == SplitSpace(parts[0]) + parts[1..]
    decreases |parts|
  {
    if |parts| > 1 {
      var init := parts[..|parts| - 1];
      var last := parts[|parts| - 1];
      assert init[0] == parts[0];
      assert forall k :: 1 <= k < |init| ==> init[k] == parts[k];
      SplitJoinSpaceHead(init);
      assert JoinSpace(parts) == JoinSpace(init) + " " + last;
      SplitSpaceThenWord(JoinSpace(init), last);
      assert init[1..] + [last] == parts[1..];
    }
  }
}
