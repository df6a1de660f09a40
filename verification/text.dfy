/** The two string operations the command line relies on: Rust's `str::trim`,
    which strips Unicode white space from both ends, and `join(" ")` over a
    list of argument strings. */
module Text {

  /** Rust's `char::is_whitespace`: the Unicode `White_Space` property. */
  predicate IsWhitespace(c: char) {
    var n := c as int;
    || (0x09 <= n <= 0x0D)
    || n == 0x20
    || n == 0x85
    || n == 0xA0
    || n == 0x1680
    || (0x2000 <= n <= 0x200A)
    || n == 0x2028
    || n == 0x2029
    || n == 0x202F
    || n == 0x205F
    || n == 0x3000
  }

  predicate AllWhitespace(s: string) {
    forall i :: 0 <= i < |s| ==> IsWhitespace(s[i])
  }

  /** Neither the first nor the last character is white space. */
  predicate IsTrimmed(s: string) {
    s == [] || (!IsWhitespace(s[0]) && !IsWhitespace(s[|s| - 1]))
  }

  /** `r` sits in `s` at offset `i` with only white space before and after it. */
  predicate StripsAt(s: string, r: string, i: int) {
    && 0 <= i && i + |r| <= |s|
    && r == s[i..i + |r|]
    && AllWhitespace(s[..i])
    && AllWhitespace(s[i + |r|..])
  }

  /** Rust's `trim_start`: drops the leading white space. */
  function TrimStart(s: string): (r: string)
    ensures |r| <= |s| && r == s[|s| - |r|..]
    ensures AllWhitespace(s[..|s| - |r|])
    ensures r == [] || !IsWhitespace(r[0])
  {
    if |s| > 0 && IsWhitespace(s[0]) then
      var q := s[1..];
      var r := TrimStart(q);
      assert r == s[|s| - |r|..] by {
        assert q[|q| - |r|..] == s[|s| - |r|..];
      }
      assert AllWhitespace(s[..|s| - |r|]) by {
        assert s[..|s| - |r|] == [s[0]] + q[..|q| - |r|];
        AllWhitespaceConcat([s[0]], q[..|q| - |r|]);
      }
      r
    else s
  }

  /** Rust's `trim_end`: drops the trailing white space. */
  function TrimEnd(s: string): (r: string)
    ensures |r| <= |s| && r == s[..|r|]
    ensures AllWhitespace(s[|r|..])
    ensures r == [] || !IsWhitespace(r[|r| - 1])
  {
    if |s| > 0 && IsWhitespace(s[|s| - 1]) then
      var p := s[..|s| - 1];
      var r := TrimEnd(p);
      assert r == s[..|r|] by {
        assert p[..|r|] == s[..|r|];
      }
      assert AllWhitespace(s[|r|..]) by {
        assert s[|r|..] == p[|r|..] + [s[|s| - 1]];
        AllWhitespaceConcat(p[|r|..], [s[|s| - 1]]);
      }
      r
    else s
  }

  lemma AllWhitespaceConcat(a: string, b: string)
    requires AllWhitespace(a) && AllWhitespace(b)
    ensures AllWhitespace(a + b)
  {
    forall k | 0 <= k < |a + b|
      ensures IsWhitespace((a + b)[k])
    {
      if k < |a| {
        assert (a + b)[k] == a[k];
      } else {
        assert (a + b)[k] == b[k - |a|];
      }
    }
  }

  /** Rust's `trim`: the part of `s` between its leading and trailing white
      space. The result is empty exactly when `s` is nothing but white space. */
  function Trim(s: string): (r: string)
    ensures IsTrimmed(r)
    ensures exists i :: StripsAt(s, r, i)
    ensures r == [] <==> AllWhitespace(s)
  {
    var t := TrimStart(s);
    var r := TrimEnd(t);
    TrimStripsAt(s, t, r);
    r
  }

  /** Trimming the end of the trimmed start leaves the trimmed text at the
      offset where the trimmed start begins. */
  lemma TrimStripsAt(s: string, t: string, r: string)
    requires |t| <= |s| && t == s[|s| - |t|..] && AllWhitespace(s[..|s| - |t|])
    requires t == [] || !IsWhitespace(t[0])
    requires |r| <= |t| && r == t[..|r|] && AllWhitespace(t[|r|..])
    requires r == [] || !IsWhitespace(r[|r| - 1])
    ensures IsTrimmed(r)
    ensures StripsAt(s, r, |s| - |t|)
    ensures r == [] <==> AllWhitespace(s)
  {
    var i := |s| - |t|;
    assert s[i..i + |r|] == t[..|r|];
    assert s[i + |r|..] == t[|r|..];
    if r == [] {
      assert s == s[..i] + t[|r|..];
      AllWhitespaceConcat(s[..i], t[|r|..]);
    } else {
      assert r[0] == t[0] == s[i];
    }
  }

  /** Trimming is determined by the two properties of `Trim`'s contract: any
      trimmed string that sits inside `s` between white space is `Trim(s)`. */
  lemma StripsUnique(s: string, r1: string, i1: int, r2: string, i2: int)
    requires StripsAt(s, r1, i1) && IsTrimmed(r1)
    requires StripsAt(s, r2, i2) && IsTrimmed(r2)
    ensures r1 == r2
  {
    if r1 != [] && r2 == [] {
      WhitespaceAround(s, i2);
    } else if r2 != [] && r1 == [] {
      WhitespaceAround(s, i1);
    }
  }

  /** If the parts before and after offset `i` are white space, so is all of `s`. */
  lemma WhitespaceAround(s: string, i: int)
    requires 0 <= i <= |s|
    requires AllWhitespace(s[..i]) && AllWhitespace(s[i..])
    ensures AllWhitespace(s)
  {
    forall k | 0 <= k < |s|
      ensures IsWhitespace(s[k])
    {
      if k < i {
        assert s[..i][k] == s[k];
      } else {
        assert s[i..][k - i] == s[k];
      }
    }
  }

  /** `Trim` is the unique trimmed string that `s` contains between white space. */
  lemma TrimCharacterised(s: string, r: string, i: int)
    requires StripsAt(s, r, i) && IsTrimmed(r)
    ensures Trim(s) == r
  {
    var t := Trim(s);
    var j :| StripsAt(s, t, j);
    StripsUnique(s, t, j, r, i);
  }

  /** Trimming an already trimmed string changes nothing. */
  lemma TrimIdempotent(s: string)
    ensures Trim(Trim(s)) == Trim(s)
  {
    var t := Trim(s);
    assert t[..0] == [] && t[|t|..] == [];
    assert StripsAt(t, t, 0);
    TrimCharacterised(t, t, 0);
  }

  /** Rust's `join(" ")` over a list of strings: the items separated by one
      space each, and the empty string for an empty list. The result is all
      white space exactly when every item is (the separator being white space). */
  function JoinWords(xs: seq<string>): (r: string)
    ensures AllWhitespace(r) <==> forall k :: 0 <= k < |xs| ==> AllWhitespace(xs[k])
  {
    if |xs| == 0 then ""
    else if |xs| == 1 then xs[0]
    else
      var tail := JoinWords(xs[1..]);
      var r := xs[0] + " " + tail;
      assert forall k :: 0 <= k < |xs[0]| ==> r[k] == xs[0][k];
      assert r[|xs[0]|] == ' ';
      assert forall k :: 0 <= k < |tail| ==> r[|xs[0]| + 1 + k] == tail[k];
      assert forall k :: 1 <= k < |xs| ==> xs[k] == xs[1..][k - 1];
      r
  }

  /** Rust's `split(' ')`: the pieces between single spaces, so that an empty
      string is one empty piece. It undoes `JoinWords` for a non-empty list of
      items without spaces. */
  function SplitOnSpace(s: string): (parts: seq<string>)
    ensures |parts| > 0
  {
    if |s| == 0 then [""]
    else
      var rest := SplitOnSpace(s[1..]);
      if s[0] == ' ' then [""] + rest
      else [[s[0]] + rest[0]] + rest[1..]
  }

  /** A word without spaces at the front of a string extends its first piece. */
  lemma {:induction false} SplitAfterWord(w: string, t: string)
    requires ' ' !in w
    ensures SplitOnSpace(w + t) == [w + SplitOnSpace(t)[0]] + SplitOnSpace(t)[1..]
    decreases |w|
  {
    if |w| > 0 {
      assert (w + t)[1..] == w[1..] + t;
      assert w[0] in w;
      SplitAfterWord(w[1..], t);
      assert [w[0]] + (w[1..] + SplitOnSpace(t)[0]) == w + SplitOnSpace(t)[0];
    } else {
      var p := SplitOnSpace(t);
      assert w + t == t && w + p[0] == p[0];
      assert p == [p[0]] + p[1..];
    }
  }

  /** Joining words that contain no space and splitting the result on spaces
      gives the words back. */
  lemma {:induction false} SplitJoinRoundTrip(xs: seq<string>)
    requires |xs| > 0
    requires forall k :: 0 <= k < |xs| ==> ' ' !in xs[k]
    ensures SplitOnSpace(JoinWords(xs)) == xs
    decreases |xs|
  {
    if |xs| == 1 {
      SplitAfterWord(xs[0], "");
      assert xs[0] + "" == xs[0];
      assert SplitOnSpace("") == [""];
    } else {
      var tail := JoinWords(xs[1..]);
      SplitJoinRoundTrip(xs[1..]);
      assert xs[0] + " " + tail == xs[0] + (" " + tail);
      SplitAfterWord(xs[0], " " + tail);
      assert (" " + tail)[0] == ' ' && (" " + tail)[1..] == tail;
      var p := SplitOnSpace(" " + tail);
      assert p == [""] + xs[1..];
      assert p[0] == "" && p[1..] == xs[1..];
      assert xs[0] + p[0] == xs[0];
      assert xs == [xs[0]] + xs[1..];
    }
  }
}
