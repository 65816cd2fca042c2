/**
  The Scholar agent (`JadeScholar/scholar_graph.py`): ingestion of a PDF, a web
  page or pasted text, whitespace normalisation of extracted text, the voice
  chosen for each podcast line, the interactive quiz and its verdict, and the
  start of `ScholarGraph.run`.  PDF parsing, HTTP, text-to-speech and the
  console are oracles or parameters.
*/
module Scholar {
  import opened Wrappers
  import opened Text

  // ------------------------------------------------- whitespace cleaning

  /** The characters of `s` that are not whitespace, in order. */
  function NonSpace(s: string): string {
    if s == [] then [] else (if IsSpace(s[0]) then [] else [s[0]]) + NonSpace(s[1..])
  }

  /** Every whitespace character is a plain blank. */
  ghost predicate OnlyBlanks(s: string) {
    forall i :: 0 <= i < |s| && IsSpace(s[i]) ==> s[i] == ' '
  }

  /** No two whitespace characters are adjacent. */
  ghost predicate NoRuns(s: string) {
    forall i :: 0 <= i < |s| - 1 ==> !(IsSpace(s[i]) && IsSpace(s[i + 1]))
  }

  lemma {:induction false} NonSpaceConcat(a: string, b: string)
    ensures NonSpace(a + b) == NonSpace(a) + NonSpace(b)
    decreases |a|
  {
    if a != [] {
      assert (a + b)[1..] == a[1..] + b;
      NonSpaceConcat(a[1..], b);
    } else {
      assert a + b == b;
    }
  }

  lemma {:induction false} NonSpaceOfAllSpace(s: string)
    requires forall i :: 0 <= i < |s| ==> IsSpace(s[i])
    ensures NonSpace(s) == []
    decreases |s|
  {
    if s != [] {
      NonSpaceOfAllSpace(s[1..]);
    }
  }

  /** Dropping whitespace from either end keeps the non-whitespace characters. */
  lemma NonSpaceStripLeft(s: string)
    ensures NonSpace(StripLeft(s)) == NonSpace(s)
  {
    var r := StripLeft(s);
    var k := |s| - |r|;
    StripLeftRemovesSpaces(s);
    assert s == s[..k] + r;
    NonSpaceConcat(s[..k], r);
    NonSpaceOfAllSpace(s[..k]);
  }

  lemma NonSpaceStripRight(s: string)
    ensures NonSpace(StripRight(s)) == NonSpace(s)
  {
    var r := StripRight(s);
    StripRightRemovesSpaces(s);
    assert s == r + s[|r|..];
    NonSpaceConcat(r, s[|r|..]);
    NonSpaceOfAllSpace(s[|r|..]);
  }

  /** `re.sub(r'\s+', ' ', s)`: every maximal run of whitespace becomes one
      blank.  Read left to right, a whitespace character followed by another
      is dropped and the last one of a run becomes the blank. */
  function Collapse(s: string): string
    decreases |s|
  {
    if s == [] then []
    else if IsSpace(s[0]) && |s| > 1 && IsSpace(s[1]) then Collapse(s[1..])
    else if IsSpace(s[0]) then [' '] + Collapse(s[1..])
    else [s[0]] + Collapse(s[1..])
  }

  /** After collapsing, every whitespace character is a blank, no two are
      adjacent, the non-whitespace characters are kept in order, and the
      result starts with whitespace exactly when the input does. */
  lemma {:induction false} CollapseShape(s: string)
    ensures var r := Collapse(s);
      && OnlyBlanks(r) && NoRuns(r)
      && NonSpace(r) == NonSpace(s)
      && (s != [] ==> r != [] && (IsSpace(r[0]) <==> IsSpace(s[0])))
    decreases |s|
  {
    if s != [] {
      var r := Collapse(s);
      CollapseShape(s[1..]);
      if !(IsSpace(s[0]) && |s| > 1 && IsSpace(s[1])) {
        assert r[1..] == Collapse(s[1..]);
      }
    }
  }

  /** `re.sub(r'\s+', ' ', text).strip()` */
  function CleanText(s: string): string {
    Strip(Collapse(s))
  }

  /** A piece of a string keeps the absence of runs and of non-blank whitespace. */
  lemma SliceKeepsShape(s: string, a: nat, b: nat)
    requires a <= b <= |s| && OnlyBlanks(s) && NoRuns(s)
    ensures OnlyBlanks(s[a..b]) && NoRuns(s[a..b])
  {
    assert forall i :: 0 <= i < b - a ==> s[a..b][i] == s[a + i];
  }

  /** Cleaned text has no whitespace at either end, only blanks as whitespace,
      never two whitespace characters in a row, and exactly the non-whitespace
      characters of the input, in order. */
  lemma CleanTextProperties(s: string)
    ensures var r := CleanText(s);
      && (r != [] ==> !IsSpace(r[0]) && !IsSpace(r[|r| - 1]))
      && OnlyBlanks(r) && NoRuns(r)
      && NonSpace(r) == NonSpace(s)
  {
    CollapseShape(s);
    StripKeepsShape(Collapse(s));
  }

  /** Stripping text without runs or non-blank whitespace keeps that shape
      and its non-whitespace characters. */
  lemma StripKeepsShape(c: string)
    requires OnlyBlanks(c) && NoRuns(c)
    ensures OnlyBlanks(Strip(c)) && NoRuns(Strip(c))
    ensures NonSpace(Strip(c)) == NonSpace(c)
  {
    var left := StripLeft(c);
    SliceKeepsShape(c, |c| - |left|, |c|);
    SliceKeepsShape(left, 0, |StripRight(left)|);
    NonSpaceStripLeft(c);
    NonSpaceStripRight(left);
  }

  /** Text already in cleaned shape is left alone by the run collapse. */
  lemma {:induction false} CollapseFixed(s: string)
    requires OnlyBlanks(s) && NoRuns(s)
    ensures Collapse(s) == s
    decreases |s|
  {
    if s != [] {
      var t := s[1..];
      assert NoRuns(t) && OnlyBlanks(t) by {
        assert forall i :: 0 <= i < |t| ==> t[i] == s[i + 1];
      }
      CollapseFixed(t);
      assert s == [s[0]] + t;
    }
  }

  /** Cleaning is idempotent. */
  lemma CleanTextIdempotent(s: string)
    ensures CleanText(CleanText(s)) == CleanText(s)
  {
    var r := CleanText(s);
    CleanTextProperties(s);
    CollapseFixed(r);
    if r != [] {
      assert StripLeft(r) == r;
      assert StripRight(r) == r;
    }
  }

  /** Every character of `s` is whitespace. */
  ghost predicate AllSpace(s: string) {
    forall i :: 0 <= i < |s| ==> IsSpace(s[i])
  }

  /** A word is copied through the run collapse character by character. */
  lemma {:induction false} CollapseWord(s: string, k: nat)
    requires k <= |s| && forall i :: 0 <= i < k ==> !IsSpace(s[i])
    ensures Collapse(s) == s[..k] + Collapse(s[k..])
    decreases k
  {
    if k > 0 {
      var t := s[1..];
      assert forall i :: 0 <= i < k - 1 ==> t[i] == s[i + 1];
      CollapseWord(t, k - 1);
      assert t[k - 1..] == s[k..];
      assert Collapse(s) == [s[0]] + Collapse(t);
      ConsConcat(s[0], t[..k - 1], Collapse(s[k..]));
      assert s[..k] == [s[0]] + t[..k - 1];
    } else {
      assert s[..k] == [] && s[k..] == s;
    }
  }

  lemma ConsConcat(c: char, a: string, b: string)
    ensures [c] + (a + b) == ([c] + a) + b
  {
  }

  /** Leading whitespace does not change the words. */
  lemma {:induction false} WordsStripLeft(s: string)
    ensures Words(StripLeft(s)) == Words(s)
    decreases |s|
  {
    if s != [] && IsSpace(s[0]) {
      WordsStripLeft(s[1..]);
    }
  }

  /** Words joined by blanks start and end with a non-whitespace character. */
  lemma {:induction false} JoinWordsEnds(ws: seq<string>)
    requires forall i :: 0 <= i < |ws| ==> IsWord(ws[i])
    ensures var j := Join(ws, " ");
      (j == [] <==> ws == []) && (j != [] ==> !IsSpace(j[0]) && !IsSpace(j[|j| - 1]))
  {
    if |ws| > 1 {
      JoinWordsEnds(ws[1..]);
      assert IsWord(ws[0]);
    } else if |ws| == 1 {
      assert IsWord(ws[0]);
    }
  }

  /** `" "` when `s` starts with whitespace, otherwise `""`. */
  function Leading(s: string): (r: string)
    ensures AllSpace(r) && (r == [] <==> s == [] || !IsSpace(s[0]))
  {
    if s != [] && IsSpace(s[0]) then " " else ""
  }

  /** `" "` when `s` ends with whitespace, otherwise `""`. */
  function Trailing(s: string): (r: string)
    ensures AllSpace(r) && (r == [] <==> s == [] || !IsSpace(s[|s| - 1]))
  {
    if s != [] && IsSpace(s[|s| - 1]) then " " else ""
  }

  /** Leading whitespace collapses to one blank. */
  lemma {:induction false} CollapseLeading(s: string)
    ensures Collapse(s) == Leading(s) + Collapse(StripLeft(s))
    decreases |s|
  {
    if s == [] || !IsSpace(s[0]) {
      assert Leading(s) + Collapse(s) == Collapse(s);
    } else if |s| > 1 && IsSpace(s[1]) {
      CollapseLeading(s[1..]);
    } else {
      assert StripLeft(s[1..]) == s[1..];
    }
  }

  /** Collapsing text that does not start with whitespace gives its words
      joined by single blanks, plus one blank if the text ends with whitespace. */
  lemma {:induction false} CollapseIsJoin(s: string)
    requires s == [] || !IsSpace(s[0])
    ensures Collapse(s) == Join(Words(s), " ") + Trailing(s)
    decreases |s|
  {
    if s != [] {
      var n := WordLength(s);
      var w, rest := s[..n], s[n..];
      CollapseWord(s, n);
      assert Words(s) == [w] + Words(rest);
      assert Trailing(s) == Trailing(rest) by {
        if rest != [] {
          assert s[|s| - 1] == rest[|rest| - 1];
        }
      }
      if rest == [] {
        assert Collapse(s) == w;
        assert Join(Words(s), " ") == w;
      } else {
        var t := StripLeft(rest);
        WordsStripLeft(rest);
        CollapseIsJoin(t);
        CollapseAfterWord(w, rest, t);
      }
    }
  }

  /** The step of `CollapseIsJoin` past one word followed by whitespace. */
  lemma CollapseAfterWord(w: string, rest: string, t: string)
    requires rest != [] && IsSpace(rest[0]) && t == StripLeft(rest)
    requires Words(rest) == Words(t)
    requires Collapse(t) == Join(Words(t), " ") + Trailing(t)
    ensures w + Collapse(rest) == Join([w] + Words(rest), " ") + Trailing(rest)
  {
    CollapseLeading(rest);
    if t == [] {
      TrailingSpaces(rest);
      assert [w] + Words(t) == [w];
    } else {
      TrailingOfSuffix(rest, t);
      JoinCons(w, Words(t), Trailing(t));
    }
  }

  /** Text that is all whitespace ends with whitespace. */
  lemma TrailingSpaces(rest: string)
    requires rest != [] && StripLeft(rest) == []
    ensures Trailing(rest) == " "
  {
    StripLeftRemovesSpaces(rest);
  }

  /** A non-empty suffix ends where the whole text ends. */
  lemma TrailingOfSuffix(s: string, t: string)
    requires t != [] && |t| <= |s| && t == s[|s| - |t|..]
    ensures Trailing(t) == Trailing(s)
  {
    assert t[|t| - 1] == s[|s| - 1];
  }

  /** Joining one more word in front adds it and a blank. */
  lemma JoinCons(w: string, ws: seq<string>, tail: string)
    requires ws != []
    ensures w + ([' '] + (Join(ws, " ") + tail)) == Join([w] + ws, " ") + tail
  {
    assert ([w] + ws)[1..] == ws;
    ConcatAssociates(w, " ", Join(ws, " "), tail);
  }

  lemma ConcatAssociates(a: string, b: string, c: string, d: string)
    ensures a + (b + (c + d)) == a + b + c + d
  {
  }

  lemma {:induction false} StripLeftSpaces(a: string, x: string)
    requires AllSpace(a) && (x == [] || !IsSpace(x[0]))
    ensures StripLeft(a + x) == x
    decreases |a|
  {
    if a != [] {
      assert (a + x)[1..] == a[1..] + x;
      StripLeftSpaces(a[1..], x);
    } else {
      assert a + x == x;
    }
  }

  lemma {:induction false} StripRightSpaces(x: string, b: string)
    requires AllSpace(b) && (x == [] || !IsSpace(x[|x| - 1]))
    ensures StripRight(x + b) == x
    decreases |b|
  {
    if b != [] {
      assert (x + b)[..|x + b| - 1] == x + b[..|b| - 1];
      StripRightSpaces(x, b[..|b| - 1]);
    } else {
      assert x + b == x;
    }
  }

  /** Stripping removes whitespace around a text with no whitespace at its ends. */
  lemma StripAround(a: string, x: string, b: string)
    requires AllSpace(a) && AllSpace(b)
    requires x != [] ==> !IsSpace(x[0]) && !IsSpace(x[|x| - 1])
    ensures Strip(a + (x + b)) == x
  {
    if x == [] {
      assert a + (x + b) == (a + b) + x;
      assert AllSpace(a + b);
      StripLeftSpaces(a + b, x);
    } else {
      StripLeftSpaces(a, x + b);
      StripRightSpaces(x, b);
    }
  }

  /** Cleaning is `" ".join(s.split())`: the words of the input, in order,
      separated by exactly one blank. */
  lemma CleanTextIsJoin(s: string)
    ensures CleanText(s) == Join(Words(s), " ")
  {
    var t := StripLeft(s);
    CollapseLeading(s);
    WordsStripLeft(s);
    CollapseIsJoin(t);
    JoinWordsEnds(Words(s));
    StripAround(Leading(s), Join(Words(s), " "), Trailing(t));
  }

  // ------------------------------------------------------------ ingestion

  const ScrapeLimit := 20000
  const MinContent := 10

  /** `read_pdf`: the pages' text (a page without text counts as empty) joined
      and cleaned, or the error message when reading raises. */
  function ReadPdf(pages: Result<seq<Option<string>>>): string {
    match pages
    case Raised(e) => "Erro ao ler PDF: " + e
    case Ok(texts) => CleanText(Concat(texts))
  }

  function Concat(texts: seq<Option<string>>): string {
    if texts == [] then [] else texts[0].GetOr("") + Concat(texts[1..])
  }

  /** `scrape_web`: the page's text cleaned and cut at 20000 characters, or the
      error message when fetching raises. */
  function ScrapeWeb(pageText: Result<string>): string {
    match pageText
    case Raised(e) => "Erro ao acessar web: " + e
    case Ok(text) =>
      var clean := CleanText(text);
      clean[..if |clean| <= ScrapeLimit then |clean| else ScrapeLimit]
  }

  /** Scraped text is at most 20000 characters long and is a prefix of the
      cleaned page, so it starts with no whitespace and has no runs (it may end
      with a blank where the cut falls after one). */
  lemma ScrapeWebBounded(text: string)
    ensures var r := ScrapeWeb(Ok(text));
      && |r| <= ScrapeLimit
      && r <= CleanText(text)
      && (|CleanText(text)| <= ScrapeLimit ==> r == CleanText(text))
      && (r != [] ==> !IsSpace(r[0]))
      && OnlyBlanks(r) && NoRuns(r)
  {
    CleanTextProperties(text);
    var clean := CleanText(text);
    var r := ScrapeWeb(Ok(text));
    SliceKeepsShape(clean, 0, |r|);
  }

  /** Where `IngestAgent.process` sends an input. */
  datatype Source = Pdf | Web | Plain

  /** The routing rule: a name ending in ".pdf" in any case that exists on
      disk is a PDF; otherwise a text starting with "http" (case-sensitive) is a
      URL; anything else is the content itself. */
  function Route(input: string, pathExists: bool): Source {
    if EndsWith(Lower(input), ".pdf") && pathExists then Pdf
    else if StartsWith(input, "http") then Web
    else Plain
  }

  /** The extension test ignores case, the URL test does not, and a missing
      ".pdf" file falls through to the other rules. */
  lemma RouteCases(input: string, pathExists: bool)
    ensures Route(input, pathExists) == Pdf <==> EndsWith(Lower(input), ".pdf") && pathExists
    ensures StartsWith(input, "HTTP") ==> Route(input, pathExists) != Web
    ensures !pathExists ==> Route(input, pathExists) != Pdf
    ensures Route(input, pathExists) == Web <==>
              StartsWith(input, "http") && !(EndsWith(Lower(input), ".pdf") && pathExists)
    ensures Route(input, pathExists) == Plain <==>
              !StartsWith(input, "http") && !(EndsWith(Lower(input), ".pdf") && pathExists)
  {
  }

  /** Upper- and lower-case spellings of the extension route alike. */
  lemma RouteExtensionIgnoresCase(a: string, b: string, pathExists: bool)
    requires Lower(a) == Lower(b) && StartsWith(a, "http") == StartsWith(b, "http")
    ensures Route(a, pathExists) == Route(b, pathExists)
  {
  }

  /** `IngestAgent.process` with the PDF reader, the existence test and the web
      fetch as parameters. */
  function Ingest(input: string, pathExists: bool, pages: Result<seq<Option<string>>>, pageText: Result<string>): (content: string)
    ensures Route(input, pathExists) == Pdf ==> content == ReadPdf(pages)
    ensures Route(input, pathExists) == Web ==> content == ScrapeWeb(pageText)
    ensures Route(input, pathExists) == Plain ==> content == input
  {
    match Route(input, pathExists)
    case Pdf => ReadPdf(pages)
    case Web => ScrapeWeb(pageText)
    case Plain => input
  }

  // -------------------------------------------------------------- voices

  datatype Voice = PtPT | PtBR

  const DefaultSpeaker := "Narrador"

  /** `line.get("speaker", "Narrador").upper()` picks the European Portuguese
      voice when it names Berta or the professora, the Brazilian one otherwise. */
  function VoiceFor(speaker: Option<string>): Voice {
    var name := Upper(speaker.GetOr(DefaultSpeaker));
    if Contains(name, "BERTA") || Contains(name, "PROFESSORA") then PtPT else PtBR
  }

  /** The choice ignores letter case, and a line without a speaker is read by
      the narrator's Brazilian voice. */
  lemma VoiceChoice(a: string, b: string)
    requires Upper(a) == Upper(b)
    ensures VoiceFor(Some(a)) == VoiceFor(Some(b))
    ensures VoiceFor(Some(a)) == PtPT <==> Contains(Upper(b), "BERTA") || Contains(Upper(b), "PROFESSORA")
  {
  }

  lemma NarratorVoice()
    ensures VoiceFor(None) == PtBR
  {
    var n := Upper(DefaultSpeaker);
    assert n == "NARRADOR";
    if Contains(n, "BERTA") {
      ContainsHead(n, "BERTA");
    }
    if Contains(n, "PROFESSORA") {
      ContainsHead(n, "PROFESSORA");
    }
  }

  /** One line of the podcast script. */
  datatype ScriptLine = ScriptLine(speaker: Option<string>, text: Option<string>)

  /** A speech-synthesis request: the voice and the text to speak. */
  datatype Speech = Speech(voice: Voice, text: string)

  /** The requests `generate_audio_mix` makes, one per script line, in order;
      mixing the returned audio is left out. */
  method GenerateAudioMix(script: seq<ScriptLine>) returns (requests: seq<Speech>)
    ensures |requests| == |script|
    ensures forall i :: 0 <= i < |script| ==>
              requests[i] == Speech(VoiceFor(script[i].speaker), script[i].text.GetOr(""))
  {
    requests := [];
    for i := 0 to |script|
      invariant |requests| == i
      invariant forall k :: 0 <= k < i ==> requests[k] == Speech(VoiceFor(script[k].speaker), script[k].text.GetOr(""))
    {
      var line := script[i];
      var voice := VoiceFor(line.speaker);
      requests := requests + [Speech(voice, line.text.GetOr(""))];
    }
  }

  // ---------------------------------------------------------------- quiz

  /** A quiz question as `interactive_session` reads it. */
  datatype Question = Question(question: string, options: seq<string>, correctOption: string, explanation: string)

  /** The first character of `s` that is not whitespace. */
  function FirstNonSpace(s: string): Option<char> {
    if s == [] then None
    else if IsSpace(s[0]) then FirstNonSpace(s[1..])
    else Some(s[0])
  }

  /** The letter an answer is graded as: `ans.strip().upper()`, then its first
      character upper-cased, or "X" for a blank answer. */
  function AnswerLetter(ans: string): char {
    match FirstNonSpace(ans)
    case None => 'X'
    case Some(c) => UpperChar(c)
  }

  lemma {:induction false} FirstNonSpaceIsStripLeft(s: string)
    ensures FirstNonSpace(s) == if StripLeft(s) == [] then None else Some(StripLeft(s)[0])
    decreases |s|
  {
    if s != [] && IsSpace(s[0]) {
      FirstNonSpaceIsStripLeft(s[1..]);
    }
  }

  lemma {:induction false} StripRightKeepsHead(s: string)
    requires s != [] && !IsSpace(s[0])
    ensures StripRight(s) != [] && StripRight(s)[0] == s[0]
    decreases |s|
  {
    if IsSpace(s[|s| - 1]) {
      StripRightKeepsHead(s[..|s| - 1]);
    }
  }

  /** The grading letter is the source's expression: "X" for an answer that
      strips to nothing, else the first character of the stripped, upper-cased
      answer, upper-cased once more. */
  lemma AnswerLetterOfStrip(ans: string)
    ensures Strip(ans) == [] ==> AnswerLetter(ans) == 'X'
    ensures Strip(ans) != [] ==> AnswerLetter(ans) == UpperChar(Upper(Strip(ans))[0])
  {
    FirstNonSpaceIsStripLeft(ans);
    var left := StripLeft(ans);
    if left != [] {
      StripRightKeepsHead(left);
    }
  }

  /** Whether the answer matches the first letter of the correct option, in
      either case; an empty correct option is an `IndexError`. */
  function Grade(q: Question, ans: string): (r: Result<bool>)
    ensures r.Raised? <==> q.correctOption == []
    ensures r.Ok? ==> r.value == Correct(q, ans)
  {
    if q.correctOption == [] then Raised("IndexError: string index out of range")
    else Ok(AnswerLetter(ans) == UpperChar(q.correctOption[0]))
  }

  predicate Correct(q: Question, ans: string) {
    q.correctOption != [] && AnswerLetter(ans) == UpperChar(q.correctOption[0])
  }

  ghost predicate Gradable(quiz: seq<Question>) {
    forall k :: 0 <= k < |quiz| ==> quiz[k].correctOption != []
  }

  /** Question by question, whether it was answered correctly. */
  function Marks(quiz: seq<Question>, answers: seq<string>): (ms: seq<bool>)
    requires |answers| == |quiz|
    ensures |ms| == |quiz|
    ensures forall k :: 0 <= k < |quiz| ==> ms[k] == Correct(quiz[k], answers[k])
  {
    seq(|quiz|, k requires 0 <= k < |quiz| => Correct(quiz[k], answers[k]))
  }

  function CountTrue(bs: seq<bool>): (n: nat)
    ensures n <= |bs|
  {
    if bs == [] then 0 else CountTrue(bs[..|bs| - 1]) + (if bs[|bs| - 1] then 1 else 0)
  }

  lemma {:induction false} CountTrueExtremes(bs: seq<bool>)
    ensures CountTrue(bs) == |bs| <==> forall k :: 0 <= k < |bs| ==> bs[k]
    ensures CountTrue(bs) == 0 <==> forall k :: 0 <= k < |bs| ==> !bs[k]
  {
    if bs != [] {
      var init := bs[..|bs| - 1];
      assert forall k :: 0 <= k < |init| ==> init[k] == bs[k];
      CountTrueExtremes(init);
    }
  }

  /** The number of correctly answered questions. */
  function CountCorrect(quiz: seq<Question>, answers: seq<string>): (n: nat)
    requires |answers| == |quiz|
    ensures n <= |quiz|
  {
    CountTrue(Marks(quiz, answers))
  }

  /** The score is full exactly when every question is answered correctly, and
      zero exactly when none is. */
  lemma CountCorrectExtremes(quiz: seq<Question>, answers: seq<string>)
    requires |answers| == |quiz|
    ensures CountCorrect(quiz, answers) == |quiz| <==>
              forall k :: 0 <= k < |quiz| ==> Correct(quiz[k], answers[k])
    ensures CountCorrect(quiz, answers) == 0 <==>
              forall k :: 0 <= k < |quiz| ==> !Correct(quiz[k], answers[k])
  {
    CountTrueExtremes(Marks(quiz, answers));
  }

  /** A blank answer is right exactly when the correct option starts with "x". */
  lemma BlankAnswer(q: Question, ans: string)
    requires q.correctOption != [] && Strip(ans) == []
    ensures Grade(q, ans) == Ok(UpperChar(q.correctOption[0]) == 'X')
  {
    AnswerLetterOfStrip(ans);
  }

  datatype Verdict = Perfect | GoodWork | StudyMore

  /** The closing message: perfect at full marks, good at half or more
      (`score >= len/2` in exact arithmetic), otherwise study more. */
  function VerdictFor(score: nat, total: nat): Verdict {
    if score == total then Perfect
    else if 2 * score >= total then GoodWork
    else StudyMore
  }

  function Rank(v: Verdict): nat {
    match v
    case StudyMore => 0
    case GoodWork => 1
    case Perfect => 2
  }

  /** A higher score never earns a worse verdict, and only full marks earn the
      perfect one. */
  lemma VerdictMonotone(s1: nat, s2: nat, total: nat)
    requires s1 <= s2 <= total
    ensures Rank(VerdictFor(s1, total)) <= Rank(VerdictFor(s2, total))
    ensures VerdictFor(s1, total) == Perfect <==> s1 == total
    ensures VerdictFor(s1, total) == StudyMore <==> 2 * s1 < total
  {
  }

  datatype Report = Report(score: nat, total: nat, verdict: Verdict)

  /** `interactive_session`: one answer is read per question and graded; the
      session ends with the score and its verdict.  An empty correct option
      raises and ends the session. */
  method InteractiveSession(quiz: seq<Question>, answers: seq<string>) returns (r: Result<Report>)
    requires |answers| == |quiz|
    ensures r.Ok? <==> Gradable(quiz)
    ensures r.Ok? ==>
      && r.value.score == CountCorrect(quiz, answers)
      && r.value.total == |quiz|
      && r.value.verdict == VerdictFor(CountCorrect(quiz, answers), |quiz|)
  {
    var score := 0;
    for i := 0 to |quiz|
      invariant forall k :: 0 <= k < i ==> quiz[k].correctOption != []
      invariant score == CountTrue(Marks(quiz, answers)[..i])
    {
      var q := quiz[i];
      var ans := answers[i];
      var graded := Grade(q, ans);
      if graded.Raised? {
        r := Raised(graded.error);
        return;
      }
      assert Marks(quiz, answers)[..i + 1][..i] == Marks(quiz, answers)[..i];
      if graded.value {
        score := score + 1;
      }
    }
    assert Marks(quiz, answers)[..|quiz|] == Marks(quiz, answers);
    r := Ok(Report(score, |quiz|, VerdictFor(score, |quiz|)));
  }

  // ------------------------------------------------------------ the graph

  class ScholarGraph {
    var rawContent: string

    constructor ()
      ensures rawContent == ""
    {
      rawContent := "";
    }

    /** The start of `run`: the target is read and stripped; an empty target
        ends the run before ingestion; otherwise the ingested content is stored
        and the run goes on only if it has at least 10 characters. */
    method Start(target: string, pathExists: bool, pages: Result<seq<Option<string>>>, pageText: Result<string>)
      returns (proceeds: bool)
      modifies this
      ensures Strip(target) == [] ==> !proceeds && rawContent == old(rawContent)
      ensures Strip(target) != [] ==> rawContent == Ingest(Strip(target), pathExists, pages, pageText)
      ensures proceeds <==> Strip(target) != [] && |rawContent| >= MinContent
    {
      var input := Strip(target);
      if input == [] {
        return false;
      }
      rawContent := Ingest(input, pathExists, pages, pageText);
      if rawContent == [] || |rawContent| < MinContent {
        return false;
      }
      return true;
    }
  }

  /** A failed read or fetch is not caught by the length check: its error
      message is long enough to be studied as content. */
  lemma ErrorsPassTheLengthCheck(e: string)
    ensures |ReadPdf(Raised(e))| >= MinContent
    ensures |ScrapeWeb(Raised(e))| >= MinContent
  {
  }
}
