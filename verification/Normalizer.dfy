/** The prompt-injection scanner's input normalisation: variants of a text that only hide the
    same words scan alike. Patterns are left abstract. */
module Normalizer {
  import opened Text

  /** Format characters (Unicode category Cf). */
  predicate IsFormat(c: char) {
    c == '\U{00AD}' || '\U{0600}' <= c <= '\U{0605}' || c == '\U{061C}' || c == '\U{06DD}' || c == '\U{070F}' ||
    '\U{0890}' <= c <= '\U{0891}' || c == '\U{08E2}' || c == '\U{180E}' || '\U{200B}' <= c <= '\U{200F}' ||
    '\U{202A}' <= c <= '\U{202E}' || '\U{2060}' <= c <= '\U{2064}' || '\U{2066}' <= c <= '\U{206F}' ||
    c == '\U{FEFF}' || '\U{FFF9}' <= c <= '\U{FFFB}' || c == '\U{110BD}' || c == '\U{110CD}' ||
    '\U{13430}' <= c <= '\U{1343F}' || '\U{1BCA0}' <= c <= '\U{1BCA3}' || '\U{1D173}' <= c <= '\U{1D17A}' ||
    c == '\U{E0001}' || '\U{E0020}' <= c <= '\U{E007F}'
  }

  /** The Cyrillic letters that look Latin, and their Latin twins. */
  function Latin(c: char): char {
    match c
    case '\U{0430}' => 'a'
    case '\U{0435}' => 'e'
    case '\U{043E}' => 'o'
    case '\U{0440}' => 'p'
    case '\U{0441}' => 'c'
    case '\U{0445}' => 'x'
    case '\U{0410}' => 'A'
    case '\U{0415}' => 'E'
    case '\U{041E}' => 'O'
    case '\U{0420}' => 'P'
    case '\U{0421}' => 'C'
    case '\U{0425}' => 'X'
    case _ => c
  }

  function Cleaned(c: char): string {
    if IsFormat(c) then "" else [Latin(c)]
  }

  function Clean(s: string): string
    decreases |s|
  {
    if |s| == 0 then "" else Clean(s[..|s| - 1]) + Cleaned(s[|s| - 1])
  }

  /** strings.Fields: the maximal runs of characters that are not white space. */
  function Fields(s: string): seq<string> {
    Nonempty(Split(s, IsSpace))
  }

  function Nonempty(pieces: seq<string>): seq<string> {
    if |pieces| == 0 then []
    else Nonempty(pieces[..|pieces| - 1]) + if pieces[|pieces| - 1] == "" then [] else [pieces[|pieces| - 1]]
  }

  /** The words the scanner sees. */
  function Words(s: string): seq<string> {
    Fields(Clean(s))
  }

  function Normalized(s: string): string {
    Join(Words(s), ' ')
  }

  method Normalize(input: string) returns (output: string)
    ensures output == Normalized(input)
  {
    var b := "";
    for i := 0 to |input|
      invariant b == Clean(input[..i])
    {
      assert input[..i + 1][..i] == input[..i];
      if !IsFormat(input[i]) {
        b := b + [Latin(input[i])];
      }
    }
    assert input[..|input|] == input;
    output := Join(Fields(b), ' ');
  }

  // ---------- cleaning ----------

  predicate IsClean(c: char) {
    !IsFormat(c) && Latin(c) == c
  }

  lemma CharacterFacts(c: char)
    ensures Latin(Latin(c)) == Latin(c)
    ensures IsFormat(Latin(c)) <==> IsFormat(c)
    ensures IsSpace(Latin(c)) <==> IsSpace(c)
    ensures IsSpace(c) ==> !IsFormat(c) && Latin(c) == c
  {
  }

  lemma {:induction false} CleanConcat(a: string, b: string)
    ensures Clean(a + b) == Clean(a) + Clean(b)
    decreases |b|
  {
    if |b| == 0 {
      assert a + b == a;
    } else {
      assert (a + b)[..|a + b| - 1] == a + b[..|b| - 1];
      CleanConcat(a, b[..|b| - 1]);
    }
  }

  lemma CleanSnoc(s: string, c: char)
    ensures Clean(s + [c]) == Clean(s) + Cleaned(c)
  {
    assert (s + [c])[..|s|] == s;
  }

  lemma CleanOne(c: char)
    ensures Clean([c]) == Cleaned(c)
  {
    assert [c][..0] == "";
  }

  lemma {:induction false} CleanIsClean(s: string)
    ensures forall i :: 0 <= i < |Clean(s)| ==> IsClean(Clean(s)[i])
    decreases |s|
  {
    if |s| == 0 {
    } else {
      CleanIsClean(s[..|s| - 1]);
      CharacterFacts(s[|s| - 1]);
    }
  }

  lemma {:induction false} CleanOfClean(s: string)
    requires forall i :: 0 <= i < |s| ==> IsClean(s[i])
    ensures Clean(s) == s
    decreases |s|
  {
    if |s| == 0 {
    } else {
      var init, last := s[..|s| - 1], s[|s| - 1];
      CleanOfClean(init);
      CleanSnoc(init, last);
      CleanStays(last);
      assert s == init + [last];
    }
  }

  lemma CleanStays(c: char)
    requires IsClean(c)
    ensures Cleaned(c) == [c]
  {
  }

  // ---------- words ----------

  lemma {:induction false} NonemptyConcat(a: seq<string>, b: seq<string>)
    ensures Nonempty(a + b) == Nonempty(a) + Nonempty(b)
    decreases |b|
  {
    if |b| == 0 {
      assert a + b == a;
    } else {
      assert (a + b)[..|a + b| - 1] == a + b[..|b| - 1];
      NonemptyConcat(a, b[..|b| - 1]);
    }
  }

  ghost predicate AreWords(ws: seq<string>) {
    AllFree(ws, IsSpace) && forall i :: 0 <= i < |ws| ==> ws[i] != ""
  }

  lemma {:induction false} NonemptyAreWords(pieces: seq<string>)
    requires AllFree(pieces, IsSpace)
    ensures AreWords(Nonempty(pieces))
    decreases |pieces|
  {
    if |pieces| == 0 {
    } else {
      NonemptyAreWords(pieces[..|pieces| - 1]);
    }
  }

  lemma {:induction false} NonemptyOfWords(ws: seq<string>)
    requires forall i :: 0 <= i < |ws| ==> ws[i] != ""
    ensures Nonempty(ws) == ws
    decreases |ws|
  {
    if |ws| == 0 {
    } else {
      NonemptyOfWords(ws[..|ws| - 1]);
      assert ws == ws[..|ws| - 1] + [ws[|ws| - 1]];
    }
  }

  /** Words come back from their joined form. */
  lemma FieldsOfJoin(ws: seq<string>)
    requires AreWords(ws)
    ensures Fields(Join(ws, ' ')) == ws
  {
    if ws == [] {
      assert Split("", IsSpace) == [""];
      assert Nonempty([""]) == [] by { assert [""][..0] == []; }
    } else {
      SplitOfJoin(ws, ' ', IsSpace);
      NonemptyOfWords(ws);
    }
  }

  lemma WordsAreWords(s: string)
    ensures AreWords(Words(s))
  {
    SplitFree(Clean(s), IsSpace);
    NonemptyAreWords(Split(Clean(s), IsSpace));
  }

  /** Two texts normalise alike exactly when they have the same words. */
  lemma NormalizedIff(x: string, y: string)
    ensures Normalized(x) == Normalized(y) <==> Words(x) == Words(y)
  {
    WordsAreWords(x);
    WordsAreWords(y);
    FieldsOfJoin(Words(x));
    FieldsOfJoin(Words(y));
  }

  ghost predicate Good(s: string, good: char -> bool) {
    forall i :: 0 <= i < |s| ==> good(s[i])
  }

  ghost predicate AllGood(pieces: seq<string>, good: char -> bool) {
    forall i :: 0 <= i < |pieces| ==> Good(pieces[i], good)
  }

  lemma {:induction false} JoinKeeps(pieces: seq<string>, sep: char, good: char -> bool)
    requires good(sep) && AllGood(pieces, good)
    ensures Good(Join(pieces, sep), good)
    decreases |pieces|
  {
    if |pieces| <= 1 {
    } else {
      JoinKeeps(pieces[..|pieces| - 1], sep, good);
    }
  }

  lemma {:induction false} SplitKeeps(s: string, sep: char -> bool, good: char -> bool)
    requires Good(s, good)
    ensures AllGood(Split(s, sep), good)
    decreases |s|
  {
    if |s| == 0 {
    } else {
      SplitKeeps(s[..|s| - 1], sep, good);
    }
  }

  lemma {:induction false} NonemptyKeeps(pieces: seq<string>, good: char -> bool)
    requires AllGood(pieces, good)
    ensures AllGood(Nonempty(pieces), good)
    decreases |pieces|
  {
    if |pieces| == 0 {
    } else {
      NonemptyKeeps(pieces[..|pieces| - 1], good);
    }
  }

  /** Normalising a normalised text changes nothing. */
  lemma NormalizeIdempotent(s: string)
    ensures Normalized(Normalized(s)) == Normalized(s)
  {
    CleanIsClean(s);
    SplitKeeps(Clean(s), IsSpace, IsClean);
    NonemptyKeeps(Split(Clean(s), IsSpace), IsClean);
    JoinKeeps(Words(s), ' ', IsClean);
    CleanOfClean(Normalized(s));
    WordsAreWords(s);
    FieldsOfJoin(Words(s));
  }

  // ---------- variants ----------

  ghost predicate AllSpace(s: string) {
    forall i :: 0 <= i < |s| ==> IsSpace(s[i])
  }

  lemma FieldsAtSpace(a: string, c: char, b: string)
    requires IsSpace(c)
    ensures Fields(a + [c] + b) == Fields(a) + Fields(b)
  {
    SplitAt(a, c, b, IsSpace);
    NonemptyConcat(Split(a, IsSpace), Split(b, IsSpace));
  }

  lemma NoFields()
    ensures Fields("") == []
  {
    assert Split("", IsSpace) == [""] && [""][..0] == [];
  }

  lemma {:induction false} FieldsAfterSpace(u: string, b: string)
    requires AllSpace(u)
    ensures Fields(u + b) == Fields(b)
    decreases |u|
  {
    if |u| == 0 {
      assert u + b == b;
    } else {
      FieldsAfterSpace(u[1..], b);
      FieldsAtSpace("", u[0], u[1..] + b);
      NoFields();
      assert "" + [u[0]] + (u[1..] + b) == u + b;
    }
  }

  lemma FieldsAcrossSpace(a: string, u: string, b: string)
    requires |u| > 0 && AllSpace(u)
    ensures Fields(a + u + b) == Fields(a) + Fields(b)
  {
    FieldsAtSpace(a, u[0], u[1..] + b);
    FieldsAfterSpace(u[1..], b);
    assert a + [u[0]] + (u[1..] + b) == a + u + b;
  }

  lemma CleanOfSpace(u: string)
    requires AllSpace(u)
    ensures Clean(u) == u
  {
    forall i | 0 <= i < |u| ensures IsClean(u[i]) {
      CharacterFacts(u[i]);
    }
    CleanOfClean(u);
  }

  /** White space separates words, however much of it there is. */
  lemma WordsAcrossSpace(a: string, u: string, b: string)
    requires |u| > 0 && AllSpace(u)
    ensures Words(a + u + b) == Words(a) + Words(b)
  {
    CleanConcat(a + u, b);
    CleanConcat(a, u);
    CleanOfSpace(u);
    FieldsAcrossSpace(Clean(a), u, Clean(b));
  }

  /** The edits a normalised scan does not see: a format character put in, a listed letter
      replaced by its twin, a run of white space resized. */
  datatype Edit =
    | PutFormat(c: char)
    | SwapTwin(from: char, to: char)
    | Resize(before: string, after: string)

  ghost predicate Invisible(e: Edit) {
    match e
    case PutFormat(c) => IsFormat(c)
    case SwapTwin(from, to) => Latin(from) == Latin(to)
    case Resize(u, v) => |u| > 0 && |v| > 0 && AllSpace(u) && AllSpace(v)
  }

  function Source(e: Edit): string {
    match e
    case PutFormat(_) => ""
    case SwapTwin(from, _) => [from]
    case Resize(u, _) => u
  }

  function Target(e: Edit): string {
    match e
    case PutFormat(c) => [c]
    case SwapTwin(_, to) => [to]
    case Resize(_, v) => v
  }

  /** `y` is `x` with one invisible edit, or the other way round. */
  ghost predicate Variant(x: string, y: string) {
    exists e: Edit, a: string, b: string {:trigger Edited(e, a, b, x, y)} ::
      Edited(e, a, b, x, y) || Edited(e, a, b, y, x)
  }

  ghost predicate Edited(e: Edit, a: string, b: string, x: string, y: string) {
    Invisible(e) && x == a + Source(e) + b && y == a + Target(e) + b
  }

  lemma EditedWords(e: Edit, a: string, b: string, x: string, y: string)
    requires Edited(e, a, b, x, y)
    ensures Words(x) == Words(y)
  {
    if e.Resize? {
      WordsAcrossSpace(a, e.before, b);
      WordsAcrossSpace(a, e.after, b);
    } else {
      CleanConcat(a + Source(e), b);
      CleanConcat(a, Source(e));
      CleanConcat(a + Target(e), b);
      CleanConcat(a, Target(e));
      if e.SwapTwin? {
        CleanOne(e.from);
        CleanOne(e.to);
        CharacterFacts(e.from);
        CharacterFacts(e.to);
      } else {
        CleanOne(e.c);
      }
    }
  }

  lemma VariantWords(x: string, y: string)
    requires Variant(x, y)
    ensures Words(x) == Words(y)
  {
    var e: Edit, a: string, b: string :| Edited(e, a, b, x, y) || Edited(e, a, b, y, x);
    if Edited(e, a, b, x, y) {
      EditedWords(e, a, b, x, y);
    } else {
      EditedWords(e, a, b, y, x);
    }
  }

  lemma {:induction false} ConstantAlong<T, U>(chain: seq<T>, f: T -> U)
    requires |chain| > 0
    requires forall i :: 0 < i < |chain| ==> f(chain[i - 1]) == f(chain[i])
    ensures f(chain[0]) == f(chain[|chain| - 1])
    decreases |chain|
  {
    if |chain| == 1 {
    } else {
      ConstantAlong(chain[..|chain| - 1], f);
    }
  }

  /** Any chain of invisible edits leaves the normalised text as it is. */
  lemma VariantsNormalizeAlike(chain: seq<string>)
    requires |chain| > 0
    requires forall i :: 0 < i < |chain| ==> Variant(chain[i - 1], chain[i])
    ensures Normalized(chain[0]) == Normalized(chain[|chain| - 1])
  {
    forall i | 0 < i < |chain| ensures Words(chain[i - 1]) == Words(chain[i]) {
      VariantWords(chain[i - 1], chain[i]);
    }
    ConstantAlong(chain, Words);
  }

  // ---------- the raw scan ----------

  datatype Pattern = Pattern(name: string, severity: string, confidence: int, findString: string -> string)

  datatype Finding = Finding(kind: string, severity: string, confidence: int, action: string, matched: string)

  function Findings(patterns: seq<Pattern>, normalized: string): seq<Finding> {
    if |patterns| == 0 then []
    else
      var p := patterns[|patterns| - 1];
      var found := p.findString(normalized);
      Findings(patterns[..|patterns| - 1], normalized) +
        if found == "" then [] else [Finding(p.name, p.severity, p.confidence, "BLOCK", found)]
  }

  method ScanRaw(patterns: seq<Pattern>, input: string) returns (findings: seq<Finding>)
    ensures findings == Findings(patterns, Normalized(input))
  {
    var normalized := Normalize(input);
    findings := [];
    for i := 0 to |patterns|
      invariant findings == Findings(patterns[..i], normalized)
    {
      assert patterns[..i + 1][..i] == patterns[..i];
      var found := patterns[i].findString(normalized);
      if found != "" {
        findings := findings +
          [Finding(patterns[i].name, patterns[i].severity, patterns[i].confidence, "BLOCK", found)];
      }
    }
    assert patterns[..|patterns|] == patterns;
  }
}
