/** Splitting, joining and trimming. Strings are sequences of Unicode characters. */
module Text {

  predicate IsNewline(c: char) { c == '\n' }

  predicate IsComma(c: char) { c == ',' }

  /** unicode.IsSpace. */
  predicate IsSpace(c: char) {
    c == '\t' || c == '\n' || c == '\U{000B}' || c == '\U{000C}' || c == '\r' || c == ' ' ||
    c == '\U{0085}' || c == '\U{00A0}' || c == '\U{1680}' || '\U{2000}' <= c <= '\U{200A}' ||
    c == '\U{2028}' || c == '\U{2029}' || c == '\U{202F}' || c == '\U{205F}' || c == '\U{3000}'
  }

  /** The pieces between the separators: always one more than there are separators. */
  function Split(s: string, sep: char -> bool): (pieces: seq<string>)
    ensures |pieces| > 0
    decreases |s|
  {
    if |s| == 0 then [""]
    else
      var rest, c := Split(s[..|s| - 1], sep), s[|s| - 1];
      if sep(c) then rest + [""] else Longer(rest, c)
  }

  /** The last piece grows by one character. */
  function Longer(pieces: seq<string>, c: char): (longer: seq<string>)
    requires |pieces| > 0
    ensures |longer| == |pieces|
  {
    pieces[..|pieces| - 1] + [pieces[|pieces| - 1] + [c]]
  }

  lemma LongerConcat(front: seq<string>, pieces: seq<string>, c: char)
    requires |pieces| > 0
    ensures Longer(front + pieces, c) == front + Longer(pieces, c)
  {
  }

  function Join(pieces: seq<string>, sep: char): string {
    if |pieces| == 0 then ""
    else if |pieces| == 1 then pieces[0]
    else Join(pieces[..|pieces| - 1], sep) + [sep] + pieces[|pieces| - 1]
  }

  ghost predicate Free(s: string, sep: char -> bool) {
    forall i :: 0 <= i < |s| ==> !sep(s[i])
  }

  ghost predicate AllFree(pieces: seq<string>, sep: char -> bool) {
    forall i :: 0 <= i < |pieces| ==> Free(pieces[i], sep)
  }

  lemma {:induction false} SplitFree(s: string, sep: char -> bool)
    ensures AllFree(Split(s, sep), sep)
    decreases |s|
  {
    if |s| == 0 {
    } else {
      SplitFree(s[..|s| - 1], sep);
    }
  }

  lemma SplitSnoc(s: string, c: char, sep: char -> bool)
    ensures var rest := Split(s, sep);
            Split(s + [c], sep) == if sep(c) then rest + [""] else Longer(rest, c)
  {
    assert (s + [c])[..|s|] == s;
  }

  lemma {:induction false} JoinSnoc(pieces: seq<string>, piece: string, sep: char)
    requires |pieces| > 0
    ensures Join(pieces + [piece], sep) == Join(pieces, sep) + [sep] + piece
  {
    assert (pieces + [piece])[..|pieces|] == pieces;
  }

  lemma JoinLonger(pieces: seq<string>, c: char, sep: char)
    requires |pieces| > 0
    ensures Join(Longer(pieces, c), sep) == Join(pieces, sep) + [c]
  {
    var init, last := pieces[..|pieces| - 1], pieces[|pieces| - 1];
    assert pieces == init + [last];
    if |init| > 0 {
      JoinSnoc(init, last, sep);
      JoinSnoc(init, last + [c], sep);
    }
  }

  /** Joining undoes splitting at one character. */
  lemma {:induction false} JoinOfSplit(s: string, sep: char, isSep: char -> bool)
    requires forall c :: isSep(c) <==> c == sep
    ensures Join(Split(s, isSep), sep) == s
    decreases |s|
  {
    if |s| == 0 {
    } else {
      var init, c := s[..|s| - 1], s[|s| - 1];
      JoinOfSplit(init, sep, isSep);
      assert s == init + [c];
      if isSep(c) {
        JoinSnoc(Split(init, isSep), "", sep);
      } else {
        JoinLonger(Split(init, isSep), c, sep);
      }
    }
  }

  lemma SplitSnocAfter(x: string, front: seq<string>, y: string, c: char, sep: char -> bool)
    requires Split(x, sep) == front + Split(y, sep)
    ensures Split(x + [c], sep) == front + Split(y + [c], sep)
  {
    SplitSnoc(x, c, sep);
    SplitSnoc(y, c, sep);
    if sep(c) {
      assert front + Split(y, sep) + [""] == front + (Split(y, sep) + [""]);
    } else {
      LongerConcat(front, Split(y, sep), c);
    }
  }

  /** Splitting distributes over a separator. */
  lemma {:induction false} SplitAt(a: string, c: char, b: string, sep: char -> bool)
    requires sep(c)
    ensures Split(a + [c] + b, sep) == Split(a, sep) + Split(b, sep)
    decreases |b|
  {
    if |b| == 0 {
      assert a + [c] + b == a + [c];
      SplitSnoc(a, c, sep);
    } else {
      var init, last := b[..|b| - 1], b[|b| - 1];
      SplitAt(a, c, init, sep);
      SplitSnocAfter(a + [c] + init, Split(a, sep), init, last, sep);
      assert b == init + [last];
      assert a + [c] + b == (a + [c] + init) + [last];
    }
  }

  lemma {:induction false} SplitOfFree(s: string, sep: char -> bool)
    requires Free(s, sep)
    ensures Split(s, sep) == [s]
    decreases |s|
  {
    if |s| == 0 {
    } else {
      SplitOfFree(s[..|s| - 1], sep);
      assert s == s[..|s| - 1] + [s[|s| - 1]];
    }
  }

  /** Splitting undoes joining exactly on nonempty lists of separator-free pieces. */
  lemma SplitOfJoin(pieces: seq<string>, c: char, sep: char -> bool)
    requires sep(c)
    ensures Split(Join(pieces, c), sep) == pieces <==> pieces != [] && AllFree(pieces, sep)
  {
    if pieces != [] && AllFree(pieces, sep) {
      SplitOfJoinFree(pieces, c, sep);
    } else {
      SplitFree(Join(pieces, c), sep);
    }
  }

  lemma {:induction false} SplitOfJoinFree(pieces: seq<string>, c: char, sep: char -> bool)
    requires sep(c) && pieces != [] && AllFree(pieces, sep)
    ensures Split(Join(pieces, c), sep) == pieces
    decreases |pieces|
  {
    var init, last := pieces[..|pieces| - 1], pieces[|pieces| - 1];
    assert pieces == init + [last];
    if |init| > 0 {
      SplitOfJoinFree(init, c, sep);
      SplitOneMore(Join(init, c), init, c, last, sep);
    } else {
      SplitOfFree(last, sep);
    }
  }

  lemma SplitOneMore(s: string, pieces: seq<string>, c: char, piece: string, sep: char -> bool)
    requires sep(c) && Split(s, sep) == pieces && Free(piece, sep)
    ensures Split(s + [c] + piece, sep) == pieces + [piece]
  {
    SplitAt(s, c, piece, sep);
    SplitOfFree(piece, sep);
  }

  // ---------- trimming ----------

  function TrimLeft(s: string): string {
    if |s| > 0 && IsSpace(s[0]) then TrimLeft(s[1..]) else s
  }

  function TrimRight(s: string): string {
    if |s| > 0 && IsSpace(s[|s| - 1]) then TrimRight(s[..|s| - 1]) else s
  }

  function TrimSpace(s: string): string {
    TrimRight(TrimLeft(s))
  }

  ghost predicate IsTrimmed(s: string) {
    |s| > 0 ==> !IsSpace(s[0]) && !IsSpace(s[|s| - 1])
  }

  lemma {:induction false} TrimLeftFirst(s: string)
    ensures |TrimLeft(s)| > 0 ==> !IsSpace(TrimLeft(s)[0])
    ensures |TrimLeft(s)| <= |s| && TrimLeft(s) == s[|s| - |TrimLeft(s)|..]
    decreases |s|
  {
    if |s| == 0 || !IsSpace(s[0]) {
    } else {
      TrimLeftFirst(s[1..]);
    }
  }

  lemma {:induction false} TrimRightLast(s: string)
    ensures |TrimRight(s)| > 0 ==> !IsSpace(TrimRight(s)[|TrimRight(s)| - 1])
    ensures TrimRight(s) <= s
    decreases |s|
  {
    if |s| == 0 || !IsSpace(s[|s| - 1]) {
    } else {
      TrimRightLast(s[..|s| - 1]);
    }
  }

  /** Trimming yields a trimmed part of the string, and leaves exactly the trimmed ones alone. */
  lemma TrimSpaceTrims(s: string)
    ensures IsTrimmed(TrimSpace(s))
    ensures TrimSpace(s) == s <==> IsTrimmed(s)
    ensures exists i, j :: 0 <= i <= j <= |s| && TrimSpace(s) == s[i..j]
  {
    TrimLeftFirst(s);
    var l := TrimLeft(s);
    TrimRightLast(l);
    var r, i := TrimRight(l), |s| - |l|;
    assert r == s[i..i + |r|];
    assert |r| > 0 ==> r[0] == l[0];
  }

  // ---------- scopes ----------

  /** The trimmed, nonempty ones among the parts. */
  function KeptScopes(parts: seq<string>): seq<string> {
    if |parts| == 0 then []
    else
      var scope := TrimSpace(parts[|parts| - 1]);
      KeptScopes(parts[..|parts| - 1]) + if scope == "" then [] else [scope]
  }

  function ScopesOf(raw: string): seq<string> {
    if raw == "" then [] else KeptScopes(Split(raw, IsComma))
  }

  method SplitScopes(raw: string) returns (result: seq<string>)
    ensures result == ScopesOf(raw)
  {
    result := [];
    if raw == "" {
      return;
    }
    var parts := Split(raw, IsComma);
    for i := 0 to |parts|
      invariant result == KeptScopes(parts[..i])
    {
      assert parts[..i + 1][..i] == parts[..i];
      var scope := TrimSpace(parts[i]);
      if scope != "" {
        result := result + [scope];
      }
    }
    assert parts[..|parts|] == parts;
  }

  ghost predicate ProperScope(s: string) {
    s != "" && IsTrimmed(s) && Free(s, IsComma)
  }

  lemma {:induction false} KeptAreProper(parts: seq<string>)
    requires AllFree(parts, IsComma)
    ensures forall i :: 0 <= i < |KeptScopes(parts)| ==> ProperScope(KeptScopes(parts)[i])
    decreases |parts|
  {
    if |parts| == 0 {
    } else {
      KeptAreProper(parts[..|parts| - 1]);
      TrimSpaceTrims(parts[|parts| - 1]);
      var part := parts[|parts| - 1];
      var i, j :| 0 <= i <= j <= |part| && TrimSpace(part) == part[i..j];
      assert Free(part, IsComma);
    }
  }

  lemma {:induction false} ProperAreKept(parts: seq<string>)
    requires forall i :: 0 <= i < |parts| ==> ProperScope(parts[i])
    ensures KeptScopes(parts) == parts
    decreases |parts|
  {
    if |parts| == 0 {
    } else {
      ProperAreKept(parts[..|parts| - 1]);
      TrimSpaceTrims(parts[|parts| - 1]);
      assert parts == parts[..|parts| - 1] + [parts[|parts| - 1]];
    }
  }

  lemma {:induction false} JoinNonempty(pieces: seq<string>, sep: char)
    requires |pieces| > 0 && pieces[0] != ""
    ensures Join(pieces, sep) != ""
  {
  }

  /** Stored scopes come back as they were exactly when each is nonempty, trimmed and comma-free. */
  lemma ScopesRoundTrip(scopes: seq<string>)
    ensures ScopesOf(Join(scopes, ',')) == scopes <==> forall i :: 0 <= i < |scopes| ==> ProperScope(scopes[i])
  {
    var raw := Join(scopes, ',');
    SplitFree(raw, IsComma);
    KeptAreProper(Split(raw, IsComma));
    if scopes != [] && forall i :: 0 <= i < |scopes| ==> ProperScope(scopes[i]) {
      JoinNonempty(scopes, ',');
      SplitOfJoin(scopes, ',', IsComma);
      ProperAreKept(scopes);
    }
  }
}
