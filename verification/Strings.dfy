/** The string operations of the Go standard library that the controller uses. */
module Strings {

  // ---------------------------------------------------------------- splitting

  /** strings.Split with a separator of one character: one piece more than there are separators. */
  function SplitOn(s: string, sep: char): (r: seq<string>)
    ensures |r| > 0
  {
    if s == "" then [""]
    else
      var init, c := SplitOn(s[..|s| - 1], sep), s[|s| - 1];
      if c == sep then init + [""] else init[..|init| - 1] + [init[|init| - 1] + [c]]
  }

  lemma {:induction false} SplitPlain(s: string, sep: char)
    ensures sep !in s <==> |SplitOn(s, sep)| == 1
    ensures sep !in s ==> SplitOn(s, sep) == [s]
  {
    if s != "" {
      SplitPlain(s[..|s| - 1], sep);
      assert s == s[..|s| - 1] + [s[|s| - 1]];
    }
  }

  lemma {:induction false} SplitLast(s: string, t: string, sep: char)
    requires sep !in t
    ensures SplitOn(s + [sep] + t, sep) == SplitOn(s, sep) + [t]
  {
    var all := s + [sep] + t;
    if t == "" {
      assert all[..|all| - 1] == s;
    } else {
      var init := t[..|t| - 1];
      assert all[..|all| - 1] == s + [sep] + init;
      SplitLast(s, init, sep);
      assert init + [t[|t| - 1]] == t;
      assert (SplitOn(s, sep) + [init])[..|SplitOn(s, sep)|] == SplitOn(s, sep);
    }
  }

  /** A separator between two strings splits there: the pieces of both, and no others. */
  lemma {:induction false} SplitCount(s: string, t: string, sep: char)
    ensures |SplitOn(s + [sep] + t, sep)| == |SplitOn(s, sep)| + |SplitOn(t, sep)|
  {
    var all := s + [sep] + t;
    if t == "" {
      assert all[..|all| - 1] == s;
    } else {
      assert all[..|all| - 1] == s + [sep] + t[..|t| - 1];
      SplitCount(s, t[..|t| - 1], sep);
    }
  }

  /** Splitting loses nothing: joining the pieces gives the string back, and no piece has a separator. */
  function Joined(pieces: seq<string>, sep: char): string
    requires |pieces| > 0
  {
    if |pieces| == 1 then pieces[0] else Joined(pieces[..|pieces| - 1], sep) + [sep] + pieces[|pieces| - 1]
  }

  lemma JoinExtended(pieces: seq<string>, sep: char, c: char)
    requires |pieces| > 0
    ensures Joined(pieces[..|pieces| - 1] + [pieces[|pieces| - 1] + [c]], sep) == Joined(pieces, sep) + [c]
  {
  }

  lemma {:induction false} SplitThenJoin(s: string, sep: char)
    ensures Joined(SplitOn(s, sep), sep) == s
    ensures forall piece :: piece in SplitOn(s, sep) ==> sep !in piece
  {
    if s != "" {
      var init, c := s[..|s| - 1], s[|s| - 1];
      var pieces := SplitOn(init, sep);
      SplitThenJoin(init, sep);
      assert s == init + [c];
      if c == sep {
        assert (pieces + [""])[..|pieces|] == pieces;
        assert init + [sep] + "" == s;
      } else {
        JoinExtended(pieces, sep, c);
      }
    }
  }

  // ---------------------------------------------------------------- trimming and prefixes

  predicate HasPrefix(s: string, prefix: string) {
    |prefix| <= |s| && s[..|prefix|] == prefix
  }

  predicate HasSuffix(s: string, suffix: string) {
    |suffix| <= |s| && s[|s| - |suffix|..] == suffix
  }

  function TrimLeft(s: string, c: char): string {
    if s != "" && s[0] == c then TrimLeft(s[1..], c) else s
  }

  function TrimRight(s: string, c: char): string {
    if s != "" && s[|s| - 1] == c then TrimRight(s[..|s| - 1], c) else s
  }

  /** strings.Trim with a cutset of one character. */
  function Trim(s: string, c: char): string {
    TrimRight(TrimLeft(s, c), c)
  }

  lemma {:induction false} TrimLeftOf(s: string, t: string, c: char)
    requires t != "" && t[0] != c
    ensures TrimLeft(s + t, c) == if TrimLeft(s, c) == "" then t else TrimLeft(s, c) + t
  {
    if s == "" {
      assert s + t == t;
    } else if s[0] == c {
      assert (s + t)[1..] == s[1..] + t;
      TrimLeftOf(s[1..], t, c);
    }
  }

  lemma {:induction false} TrimRightOf(s: string, t: string, c: char)
    ensures TrimRight(s + t, c) == if TrimRight(t, c) == "" then TrimRight(s, c) else s + TrimRight(t, c)
  {
    if t == "" {
      assert s + t == s;
    } else if t[|t| - 1] == c {
      assert (s + t)[..|s + t| - 1] == s + t[..|t| - 1];
      TrimRightOf(s, t[..|t| - 1], c);
    }
  }

  // ---------------------------------------------------------------- replacing

  /** strings.Replace of every occurrence of one character by nothing. */
  function Removing(s: string, c: char): (r: string)
    ensures c !in r && |r| <= |s|
  {
    if s == "" then ""
    else if s[0] == c then Removing(s[1..], c)
    else [s[0]] + Removing(s[1..], c)
  }

  lemma {:induction false} RemovingAppend(s: string, t: string, c: char)
    requires c !in s
    ensures Removing(s + t, c) == s + Removing(t, c)
  {
    if s == "" {
      assert s + t == t;
    } else {
      assert (s + t)[1..] == s[1..] + t;
      RemovingAppend(s[1..], t, c);
    }
  }

  lemma RemovingOne(s: string, c: char)
    ensures Removing([c] + s, c) == Removing(s, c)
  {
    assert ([c] + s)[1..] == s;
  }

  /** strings.Replace of the first occurrence of `part` by nothing. */
  function RemoveFirst(s: string, part: string): string {
    if HasPrefix(s, part) then s[|part|..]
    else if s == "" then ""
    else [s[0]] + RemoveFirst(s[1..], part)
  }

  // ---------------------------------------------------------------- case

  function UpperChar(c: char): char {
    if 'a' <= c <= 'z' then (c as int - 'a' as int + 'A' as int) as char else c
  }

  /** strings.ToUpper on ASCII. */
  function ToUpper(s: string): (r: string)
    ensures |r| == |s|
  {
    seq(|s|, i requires 0 <= i < |s| => UpperChar(s[i]))
  }
}
