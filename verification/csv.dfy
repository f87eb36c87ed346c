/** The comma-separated-list handling of the servlet parameters: Guava's
    `Splitter.on(',').omitEmptyStrings().trimResults()` and `Joiner.on(',').skipNulls()`,
    stated on strings as sequences of characters. */
module Csv {

  const Comma: char := ','

  /** The characters Guava's `CharMatcher.whitespace()` matches: the Unicode White_Space property. */
  predicate IsWhitespace(c: char) {
    || ('\U{0009}' <= c <= '\U{000D}')
    || c == '\U{0020}'
    || c == '\U{0085}'
    || c == '\U{00A0}'
    || c == '\U{1680}'
    || ('\U{2000}' <= c <= '\U{200A}')
    || c == '\U{2028}'
    || c == '\U{2029}'
    || c == '\U{202F}'
    || c == '\U{205F}'
    || c == '\U{3000}'
  }

  /** `s` with its leading whitespace removed. */
  function TrimStart(s: string): (r: string)
    ensures |r| <= |s| && r == s[|s| - |r|..]
    ensures forall i :: 0 <= i < |s| - |r| ==> IsWhitespace(s[i])
    ensures r == [] || !IsWhitespace(r[0])
  {
    if |s| > 0 && IsWhitespace(s[0]) then
      var r := TrimStart(s[1..]);
      assert s[1..][|s| - 1 - |r|..] == s[|s| - |r|..];
      assert forall i :: 1 <= i < |s| - |r| ==> s[i] == s[1..][i - 1];
      r
    else s
  }

  /** `s` with its trailing whitespace removed. */
  function TrimEnd(s: string): (r: string)
    ensures |r| <= |s| && r == s[..|r|]
    ensures forall i :: |r| <= i < |s| ==> IsWhitespace(s[i])
    ensures r == [] || !IsWhitespace(r[|r| - 1])
  {
    if |s| > 0 && IsWhitespace(s[|s| - 1]) then
      var r := TrimEnd(s[..|s| - 1]);
      assert s[..|s| - 1][..|r|] == s[..|r|];
      assert forall i :: |r| <= i < |s| - 1 ==> s[i] == s[..|s| - 1][i];
      r
    else s
  }

  /** Guava's `CharMatcher.whitespace().trimFrom(s)`. */
  function Trim(s: string): string {
    TrimEnd(TrimStart(s))
  }

  /** Neither end of `s` is whitespace: trimming leaves it alone. */
  predicate IsTrimmed(s: string) {
    s == [] || (!IsWhitespace(s[0]) && !IsWhitespace(s[|s| - 1]))
  }

  lemma TrimmedIsFixedPoint(s: string)
    requires IsTrimmed(s)
    ensures Trim(s) == s
  {
  }

  lemma TrimIsTrimmed(s: string)
    ensures IsTrimmed(Trim(s))
  {
    var t := TrimStart(s);
    var r := TrimEnd(t);
    if r != [] {
      assert r[0] == t[0];
    }
  }

  /** A name the splitter can produce, and so one that survives a round trip through the joiner
      and the splitter: non-empty, comma-free, not padded with whitespace. */
  predicate IsCleanName(n: string) {
    n != [] && Comma !in n && IsTrimmed(n)
  }

  /** The pieces of `s` between occurrences of `sep`, without trimming or dropping anything:
      `Splitter.on(sep)` with no further options. There is always at least one piece. */
  function SplitOn(s: string, sep: char): (pieces: seq<string>)
    ensures |pieces| >= 1
    ensures forall i :: 0 <= i < |pieces| ==> sep !in pieces[i]
    ensures JoinWith(pieces, sep) == s
  {
    if |s| == 0 then [""]
    else
      var rest := SplitOn(s[1..], sep);
      if s[0] == sep then
        [""] + rest
      else
        var first := [s[0]] + rest[0];
        var pieces := [first] + rest[1..];
        assert pieces[1..] == rest[1..];
        pieces
  }

  /** `Joiner.on(sep).join(parts)`: the parts with one separator between neighbours. */
  function JoinWith(parts: seq<string>, sep: char): string {
    if |parts| == 0 then ""
    else if |parts| == 1 then parts[0]
    else parts[0] + [sep] + JoinWith(parts[1..], sep)
  }

  /** The servlet's `CSV_SPLITTER`: split on ',', trim each piece, drop the pieces left empty. */
  function Split(s: string): (names: seq<string>)
    ensures forall i :: 0 <= i < |names| ==> IsCleanName(names[i])
  {
    KeepTrimmedNonEmpty(SplitOn(s, Comma))
  }

  /** The servlet's `CSV_JOINER`. */
  function Join(names: seq<string>): string {
    JoinWith(names, Comma)
  }

  /** Trimming keeps a character out when the untrimmed string had none of it. */
  lemma TrimAvoids(s: string, c: char)
    requires c !in s
    ensures c !in Trim(s)
  {
    var t := TrimStart(s);
    assert t == s[|s| - |t|..];
    var r := TrimEnd(t);
    assert r == t[..|r|];
  }

  function KeepTrimmedNonEmpty(pieces: seq<string>): (names: seq<string>)
    requires forall i :: 0 <= i < |pieces| ==> Comma !in pieces[i]
    ensures |names| <= |pieces|
    ensures forall i :: 0 <= i < |names| ==> IsCleanName(names[i])
  {
    if |pieces| == 0 then []
    else
      var t := Trim(pieces[0]);
      TrimmedPieceIsClean(pieces[0]);
      var rest := KeepTrimmedNonEmpty(pieces[1..]);
      if t == [] then rest
      else
        CleanCons(t, rest);
        [t] + rest
  }

  /** A comma-free piece trims to a clean name or to nothing. */
  lemma TrimmedPieceIsClean(s: string)
    requires Comma !in s
    ensures Trim(s) != [] ==> IsCleanName(Trim(s))
  {
    TrimIsTrimmed(s);
    TrimAvoids(s, Comma);
  }

  /** Putting a clean name in front of clean names gives clean names. */
  lemma CleanCons(t: string, rest: seq<string>)
    requires IsCleanName(t)
    requires forall i :: 0 <= i < |rest| ==> IsCleanName(rest[i])
    ensures forall i :: 0 <= i < |rest| + 1 ==> IsCleanName(([t] + rest)[i])
  {
    assert forall i :: 1 <= i < |rest| + 1 ==> ([t] + rest)[i] == rest[i - 1];
  }

  lemma {:induction false} SplitOnNoSeparator(a: string, sep: char)
    requires sep !in a
    ensures SplitOn(a, sep) == [a]
    decreases |a|
  {
    if |a| > 0 {
      SplitOnNoSeparator(a[1..], sep);
      assert [a[0]] + a[1..] == a;
    }
  }

  lemma {:induction false} SplitOnAfterPiece(a: string, b: string, sep: char)
    requires sep !in a
    ensures SplitOn(a + [sep] + b, sep) == [a] + SplitOn(b, sep)
    decreases |a|
  {
    var s := a + [sep] + b;
    if |a| == 0 {
      assert s[1..] == b;
    } else {
      assert s[1..] == a[1..] + [sep] + b;
      SplitOnAfterPiece(a[1..], b, sep);
      assert [a[0]] + a[1..] == a;
    }
  }

  /** Splitting undoes joining when no part contains the separator. */
  lemma {:induction false} SplitOnJoinWith(parts: seq<string>, sep: char)
    requires |parts| >= 1
    requires forall i :: 0 <= i < |parts| ==> sep !in parts[i]
    ensures SplitOn(JoinWith(parts, sep), sep) == parts
    decreases |parts|
  {
    if |parts| == 1 {
      SplitOnNoSeparator(parts[0], sep);
    } else {
      SplitOnJoinWith(parts[1..], sep);
      SplitOnAfterPiece(parts[0], JoinWith(parts[1..], sep), sep);
      assert [parts[0]] + parts[1..] == parts;
    }
  }

  lemma {:induction false} KeepCleanNames(names: seq<string>)
    requires forall i :: 0 <= i < |names| ==> IsCleanName(names[i])
    ensures (forall i :: 0 <= i < |names| ==> Comma !in names[i]) && KeepTrimmedNonEmpty(names) == names
    decreases |names|
  {
    if |names| > 0 {
      KeepCleanNames(names[1..]);
      KeepCleanStep(names);
      assert [names[0]] + names[1..] == names;
    }
  }

  /** A clean first piece is kept as it is. */
  lemma KeepCleanStep(names: seq<string>)
    requires |names| > 0 && IsCleanName(names[0])
    requires forall i :: 0 <= i < |names| ==> Comma !in names[i]
    ensures KeepTrimmedNonEmpty(names) == [names[0]] + KeepTrimmedNonEmpty(names[1..])
  {
    TrimmedIsFixedPoint(names[0]);
  }

  /** The empty string holds no names. */
  lemma EmptySplitsToNothing()
    ensures Split("") == []
  {
    assert SplitOn("", Comma) == [""];
    assert Trim("") == "";
    assert [""][1..] == [];
  }

  /** Round trip of the servlet's CSV handling: splitting the joined names gives the names back,
      in order, when each name is non-empty, comma-free and not padded with whitespace. */
  lemma SplitJoin(names: seq<string>)
    requires forall i :: 0 <= i < |names| ==> IsCleanName(names[i])
    ensures Split(Join(names)) == names
  {
    if |names| == 0 {
      assert Join(names) == "";
      EmptySplitsToNothing();
    } else {
      var j := Join(names);
      SplitOnJoinWith(names, Comma);
      assert SplitOn(j, Comma) == names;
      KeepCleanNames(names);
      assert Split(j) == KeepTrimmedNonEmpty(names);
    }
  }

  /** Whatever the input, the splitter's names survive a join and a second split unchanged. */
  lemma SplitJoinSplit(s: string)
    ensures Split(Join(Split(s))) == Split(s)
  {
    SplitJoin(Split(s));
  }

  // ----- What the splitter keeps -----

  predicate CommaFree(pieces: seq<string>) {
    forall i :: 0 <= i < |pieces| ==> Comma !in pieces[i]
  }

  /** Trimming and dropping empties distributes over concatenation: names keep the order of the
      pieces they come from. */
  lemma {:induction false} KeepTrimmedNonEmptyAppend(a: seq<string>, b: seq<string>)
    requires CommaFree(a) && CommaFree(b)
    ensures CommaFree(a + b) && KeepTrimmedNonEmpty(a + b) == KeepTrimmedNonEmpty(a) + KeepTrimmedNonEmpty(b)
    decreases |a|
  {
    assert CommaFree(a + b) by {
      assert forall i :: 0 <= i < |a + b| ==> (a + b)[i] == if i < |a| then a[i] else b[i - |a|];
    }
    if |a| == 0 {
      assert a + b == b;
    } else {
      assert (a + b)[0] == a[0];
      assert (a + b)[1..] == a[1..] + b;
      KeepTrimmedNonEmptyAppend(a[1..], b);
    }
  }

  /** Every piece that trims to something is kept, trimmed. */
  lemma {:induction false} KeepTrimmedNonEmptyKeeps(pieces: seq<string>, i: int)
    requires CommaFree(pieces) && 0 <= i < |pieces| && Trim(pieces[i]) != []
    ensures Trim(pieces[i]) in KeepTrimmedNonEmpty(pieces)
    decreases i
  {
    if i > 0 {
      var tail := pieces[1..];
      assert pieces[i] == tail[i - 1];
      KeepTrimmedNonEmptyKeeps(tail, i - 1);
    }
  }

  /** Every name kept is a trimmed piece. */
  lemma {:induction false} KeepTrimmedNonEmptyOnlyPieces(pieces: seq<string>, n: string)
    requires CommaFree(pieces) && n in KeepTrimmedNonEmpty(pieces)
    ensures exists i :: 0 <= i < |pieces| && n == Trim(pieces[i])
    decreases |pieces|
  {
    var tail := pieces[1..];
    if n != Trim(pieces[0]) {
      KeepTrimmedNonEmptyOnlyPieces(tail, n);
      var i :| 0 <= i < |tail| && n == Trim(tail[i]);
      assert pieces[i + 1] == tail[i];
    }
  }

  /** Both directions: the names kept are exactly the pieces that trim to something, trimmed. */
  lemma KeepTrimmedNonEmptyMembers(pieces: seq<string>)
    requires CommaFree(pieces)
    ensures forall i :: 0 <= i < |pieces| && Trim(pieces[i]) != [] ==> Trim(pieces[i]) in KeepTrimmedNonEmpty(pieces)
    ensures forall n :: n in KeepTrimmedNonEmpty(pieces) ==> exists i :: 0 <= i < |pieces| && n == Trim(pieces[i])
  {
    forall i | 0 <= i < |pieces| && Trim(pieces[i]) != [] {
      KeepTrimmedNonEmptyKeeps(pieces, i);
    }
    forall n | n in KeepTrimmedNonEmpty(pieces) {
      KeepTrimmedNonEmptyOnlyPieces(pieces, n);
    }
  }

  /** A comma-free value holds its trimmed self, or nothing when it is blank. */
  lemma SplitPiece(x: string)
    requires Comma !in x
    ensures Split(x) == if Trim(x) == [] then [] else [Trim(x)]
  {
    SplitOnNoSeparator(x, Comma);
    assert [x][1..] == [];
  }

  /** Splitting at a comma: the pieces of the left part, then the pieces of the right part. */
  lemma {:induction false} SplitOnConcat(x: string, y: string, sep: char)
    ensures SplitOn(x + [sep] + y, sep) == SplitOn(x, sep) + SplitOn(y, sep)
    decreases |x|
  {
    var s := x + [sep] + y;
    var ys := SplitOn(y, sep);
    if |x| == 0 {
      assert s[1..] == y;
    } else {
      var l := SplitOn(x[1..], sep);
      var rest := SplitOn(s[1..], sep);
      assert rest == l + ys by {
        assert s[1..] == x[1..] + [sep] + y;
        SplitOnConcat(x[1..], y, sep);
      }
      assert s[0] == x[0];
      if x[0] == sep {
        assert SplitOn(s, sep) == [""] + rest;
        AppendAssoc([""], l, ys);
      } else {
        assert SplitOn(s, sep) == [[x[0]] + rest[0]] + rest[1..];
        ExtendFirst([x[0]], l, ys);
      }
    }
  }

  lemma AppendAssoc<T>(a: seq<T>, b: seq<T>, c: seq<T>)
    ensures a + (b + c) == (a + b) + c
  {
  }

  /** Prefixing the first piece commutes with appending more pieces. */
  lemma ExtendFirst(h: string, l: seq<string>, ys: seq<string>)
    requires |l| > 0
    ensures [h + (l + ys)[0]] + (l + ys)[1..] == ([h + l[0]] + l[1..]) + ys
  {
    assert (l + ys)[0] == l[0];
    assert (l + ys)[1..] == l[1..] + ys;
  }

  /** The names of `x,y` are the names of `x` followed by the names of `y`. */
  lemma SplitConcat(x: string, y: string)
    ensures Split(x + [Comma] + y) == Split(x) + Split(y)
  {
    SplitOnConcat(x, y, Comma);
    KeepTrimmedNonEmptyAppend(SplitOn(x, Comma), SplitOn(y, Comma));
  }

  /** The splitter keeps every comma-separated piece that trims to something, trimmed, and
      nothing else. */
  lemma SplitKeepsNonBlankPieces(s: string)
    ensures forall i :: 0 <= i < |SplitOn(s, Comma)| && Trim(SplitOn(s, Comma)[i]) != [] ==>
      Trim(SplitOn(s, Comma)[i]) in Split(s)
    ensures forall n :: n in Split(s) ==> exists i :: 0 <= i < |SplitOn(s, Comma)| && n == Trim(SplitOn(s, Comma)[i])
  {
    KeepTrimmedNonEmptyMembers(SplitOn(s, Comma));
  }

  /** A run of whitespace trims to nothing. */
  lemma BlankTrimsAway(w: string)
    requires forall i :: 0 <= i < |w| ==> IsWhitespace(w[i])
    ensures Comma !in w && Trim(w) == []
  {
  }

  /** Trailing whitespace after a string that does not end in whitespace is removed. */
  lemma {:induction false} TrimEndPadding(b: string, w: string)
    requires b == [] || !IsWhitespace(b[|b| - 1])
    requires forall i :: 0 <= i < |w| ==> IsWhitespace(w[i])
    ensures TrimEnd(b + w) == b
    decreases |w|
  {
    if |w| == 0 {
      assert b + w == b;
    } else {
      var s := b + w;
      assert s[|s| - 1] == w[|w| - 1];
      assert s[..|s| - 1] == b + w[..|w| - 1];
      TrimEndPadding(b, w[..|w| - 1]);
    }
  }

  /** A clean name followed by whitespace trims to the name. */
  lemma PaddedNameTrims(b: string, w: string)
    requires IsCleanName(b)
    requires forall i :: 0 <= i < |w| ==> IsWhitespace(w[i])
    ensures Comma !in b + w && Trim(b + w) == b
  {
    assert TrimStart(b + w) == b + w by {
      assert (b + w)[0] == b[0];
    }
    TrimEndPadding(b, w);
    BlankTrimsAway(w);
  }

  /** A blank piece before a padded name contributes nothing. */
  lemma SplitBlankThenPadded(b: string, w: string)
    requires IsCleanName(b)
    requires forall i :: 0 <= i < |w| ==> IsWhitespace(w[i])
    ensures Split(w + [Comma] + (b + w)) == [b]
  {
    SplitConcat(w, b + w);
    BlankTrimsAway(w);
    SplitPiece(w);
    PaddedNameTrims(b, w);
    SplitPiece(b + w);
  }

  /** Padding is trimmed and a blank piece is dropped: `a, ,b ` holds exactly `a` and `b`. */
  lemma SplitDropsBlankPieces(a: string, b: string, w: string)
    requires IsCleanName(a) && IsCleanName(b)
    requires forall i :: 0 <= i < |w| ==> IsWhitespace(w[i])
    ensures Split(a + [Comma] + w + [Comma] + b + w) == [a, b]
  {
    var rest := w + [Comma] + (b + w);
    SplitBlankThenPadded(b, w);
    assert Split(a) == [a] by {
      TrimmedIsFixedPoint(a);
      SplitPiece(a);
    }
    assert a + [Comma] + w + [Comma] + b + w == a + [Comma] + rest;
    SplitConcat(a, rest);
  }
}
