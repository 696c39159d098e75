/** Python's whitespace splitting, joining, stripping and splitting on a separator, as the evaluator uses them. */
module Words {
  import opened Sequences

  /** The characters that str.split() and str.strip() treat as white space. */
  predicate IsSpace(c: char) {
    var n := c as int;
    || 0x09 <= n <= 0x0D || 0x1C <= n <= 0x20 || n == 0x85 || n == 0xA0 || n == 0x1680
    || 0x2000 <= n <= 0x200A || n == 0x2028 || n == 0x2029 || n == 0x202F || n == 0x205F || n == 0x3000
  }

  /** Blanks, tabs and line ends are among them, letters, digits and the bar are not. */
  lemma {:induction false} SpacesAreNotLetters(c: char)
    ensures c == ' ' || c == '\t' || c == '\n' || c == '\r' ==> IsSpace(c)
    ensures 'a' <= c <= 'z' || 'A' <= c <= 'Z' || '0' <= c <= '9' || c == '|' ==> !IsSpace(c)
  {
  }

  ghost predicate IsWord(w: string) {
    w != [] && forall i :: 0 <= i < |w| ==> !IsSpace(w[i])
  }

  ghost predicate AreWords(ws: seq<string>) {
    forall i :: 0 <= i < |ws| ==> IsWord(ws[i])
  }

  /** How many characters precede the first white space. */
  function WordLength(s: string): (n: nat)
    ensures n <= |s|
  {
    if s == [] || IsSpace(s[0]) then 0 else 1 + WordLength(s[1..])
  }

  lemma {:induction false} WordLengthIsMaximal(s: string)
    ensures forall i :: 0 <= i < WordLength(s) ==> !IsSpace(s[i])
    ensures WordLength(s) < |s| ==> IsSpace(s[WordLength(s)])
  {
    if s != [] && !IsSpace(s[0]) {
      WordLengthIsMaximal(s[1..]);
    }
  }

  /** str.split(): the maximal runs of non-space characters. */
  function Split(s: string): seq<string>
    decreases |s|
  {
    if s == [] then []
    else if IsSpace(s[0]) then Split(s[1..])
    else
      var n := WordLength(s);
      [s[..n]] + Split(s[n..])
  }

  lemma {:induction false} SplitGivesWords(s: string)
    ensures AreWords(Split(s))
    decreases |s|
  {
    if s != [] {
      if IsSpace(s[0]) {
        SplitGivesWords(s[1..]);
      } else {
        WordLengthIsMaximal(s);
        SplitGivesWords(s[WordLength(s)..]);
      }
    }
  }

  /** " ".join(ws) */
  function Join(ws: seq<string>): string {
    if ws == [] then "" else if |ws| == 1 then ws[0] else ws[0] + " " + Join(ws[1..])
  }

  /** A word followed by a space or by nothing is what splitting finds first. */
  lemma {:induction false} WordLengthOfWord(w: string, rest: string)
    requires forall i :: 0 <= i < |w| ==> !IsSpace(w[i])
    requires rest == [] || IsSpace(rest[0])
    ensures WordLength(w + rest) == |w|
  {
    if w != [] {
      assert (w + rest)[1..] == w[1..] + rest;
      WordLengthOfWord(w[1..], rest);
    } else {
      assert w + rest == rest;
    }
  }

  /** Joining words with single spaces loses nothing. */
  lemma {:induction false} SplitOfJoin(ws: seq<string>)
    requires AreWords(ws)
    ensures Split(Join(ws)) == ws
  {
    if ws != [] {
      var rest := if |ws| == 1 then "" else " " + Join(ws[1..]);
      var s := Join(ws);
      assert s == ws[0] + rest;
      WordLengthOfWord(ws[0], rest);
      assert s[0] == ws[0][0] && s[..|ws[0]|] == ws[0] && s[|ws[0]|..] == rest;
      SplitOfJoin(ws[1..]);
      if |ws| > 1 {
        assert rest[1..] == Join(ws[1..]);
      } else {
        assert ws[1..] == [];
      }
      assert ws == [ws[0]] + ws[1..];
    }
  }

  // ---------- what splitting does to any text ----------

  lemma {:induction false} WordEndsAtSpace(a: string, rest: string)
    requires rest != [] && IsSpace(rest[0])
    ensures WordLength(a + rest) == WordLength(a)
  {
    if a == [] {
      assert a + rest == rest;
    } else {
      assert (a + rest)[1..] == a[1..] + rest;
      WordEndsAtSpace(a[1..], rest);
    }
  }

  /** The words before a white space, then those after it. */
  lemma {:induction false} SplitAtSpace(a: string, c: char, b: string)
    requires IsSpace(c)
    ensures Split(a + [c] + b) == Split(a) + Split(b)
    decreases |a|
  {
    var rest := [c] + b;
    var s := a + rest;
    assert a + [c] + b == s;
    if a == [] {
      assert s == rest && rest[1..] == b;
    } else if IsSpace(a[0]) {
      SplitAtSpace(a[1..], c, b);
      assert s[1..] == a[1..] + [c] + b;
    } else {
      var n := WordLength(a);
      WordEndsAtSpace(a, rest);
      SplitAtSpace(a[n..], c, b);
      assert s[n..] == a[n..] + [c] + b && s[..n] == a[..n];
      assert Split(s) == [a[..n]] + (Split(a[n..]) + Split(b));
    }
  }

  /** A text without white space is one word, or none. */
  lemma {:induction false} SplitOfWord(w: string)
    requires forall i :: 0 <= i < |w| ==> !IsSpace(w[i])
    ensures Split(w) == if w == "" then [] else [w]
  {
    if w != "" {
      WordLengthOfWord(w, "");
      assert w + "" == w && w[..|w|] == w && w[|w|..] == "";
    }
  }

  /** str.lstrip() */
  function StripLeft(s: string): (t: string)
    ensures t != [] ==> !IsSpace(t[0])
    ensures |t| <= |s| && t == s[|s| - |t|..]
    ensures forall i :: 0 <= i < |s| - |t| ==> IsSpace(s[i])
  {
    if s != [] && IsSpace(s[0]) then StripLeft(s[1..]) else s
  }

  /** str.rstrip() */
  function StripRight(s: string): (t: string)
    ensures t != [] ==> !IsSpace(Last(t))
    ensures |t| <= |s| && t == s[..|t|]
    ensures forall i :: |t| <= i < |s| ==> IsSpace(s[i])
  {
    if s != [] && IsSpace(Last(s)) then StripRight(Init(s)) else s
  }

  function Strip(s: string): string {
    StripRight(StripLeft(s))
  }

  /** `t` is `s` without what is before position `i` and what follows `t` there, and that is all white space. */
  ghost predicate IsCore(s: string, i: nat, t: string) {
    && i + |t| <= |s| && t == s[i..i + |t|]
    && (forall k :: 0 <= k < i ==> IsSpace(s[k]))
    && (forall k :: i + |t| <= k < |s| ==> IsSpace(s[k]))
  }

  /** What is stripped off on both sides is white space, and there is none at the ends of what is left. */
  lemma {:induction false} StripTakesSpaceOff(s: string)
    ensures IsCore(s, |s| - |StripLeft(s)|, Strip(s))
    ensures Strip(s) != "" ==> !IsSpace(Strip(s)[0]) && !IsSpace(Last(Strip(s)))
  {
    var left := StripLeft(s);
    CoreOfRest(s, |s| - |left|, left, StripRight(left));
  }

  lemma {:induction false} CoreOfRest(s: string, i: nat, left: string, t: string)
    requires i <= |s| && left == s[i..] && |t| <= |left| && t == left[..|t|]
    requires forall k :: 0 <= k < i ==> IsSpace(s[k])
    requires forall k :: |t| <= k < |left| ==> IsSpace(left[k])
    ensures IsCore(s, i, t)
    ensures t != "" ==> t[0] == left[0]
  {
    forall k | i + |t| <= k < |s|
      ensures IsSpace(s[k])
    {
      assert s[k] == left[k - i];
    }
  }

  /** s.split("|") */
  function SplitOn(s: string, bar: char): (pieces: seq<string>)
    ensures pieces != []
    ensures forall i :: 0 <= i < |pieces| ==> bar !in pieces[i]
    ensures Glue(pieces, bar) == s
  {
    if s == [] then [""]
    else
      var rest := SplitOn(s[1..], bar);
      var pieces := WithFirst(s[0], bar, rest);
      assert pieces[1..] == if s[0] == bar then rest else rest[1..];
      pieces
  }

  /** bar.join(pieces) */
  function Glue(pieces: seq<string>, bar: char): string
    requires pieces != []
  {
    if |pieces| == 1 then pieces[0] else pieces[0] + [bar] + Glue(pieces[1..], bar)
  }

  /** The pieces before a bar, then those after it. */
  lemma {:induction false} SplitOnAtBar(a: string, bar: char, b: string)
    ensures SplitOn(a + [bar] + b, bar) == SplitOn(a, bar) + SplitOn(b, bar)
    decreases |a|
  {
    var s := a + [bar] + b;
    if a == "" {
      assert s == [bar] + b && s[1..] == b;
    } else {
      SplitOnAtBar(a[1..], bar, b);
      assert s[0] == a[0] && s[1..] == a[1..] + [bar] + b;
      Prefixed(a[0], bar, SplitOn(a[1..], bar), SplitOn(b, bar));
    }
  }

  /** What one more character at the front does to a list of pieces. */
  function WithFirst(c: char, bar: char, pieces: seq<string>): seq<string>
    requires pieces != []
  {
    if c == bar then [""] + pieces else [[c] + pieces[0]] + pieces[1..]
  }

  lemma {:induction false} Prefixed(c: char, bar: char, first: seq<string>, second: seq<string>)
    requires first != []
    ensures WithFirst(c, bar, first + second) == WithFirst(c, bar, first) + second
  {
    assert (first + second)[1..] == first[1..] + second;
  }

  lemma {:induction false} SplitOnWithoutBar(s: string, bar: char)
    requires bar !in s
    ensures SplitOn(s, bar) == [s]
  {
    if s != "" {
      SplitOnWithoutBar(s[1..], bar);
      assert [s[0]] + s[1..] == s;
    }
  }
}
