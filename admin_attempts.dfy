/**
 * The admin's attempt analytics: the correctness and AI-quality filters over
 * the attempt list, the quality label, and the CSV export with its quoting.
 */
module AdminAttempts {
  import opened Wrappers
  import opened Text

  /** One attempt as the analytics page reads it. */
  datatype AttemptView = AttemptView(
    timestamp: string,
    username: string,
    levelTitle: string,
    promptText: string,
    selectedAnswer: string,
    reasoning: string,
    isCorrect: bool,
    pointsGot: int,
    doseGotMsv: real,
    aiFeedback: string,
    aiQualityScore: Option<int>,
    aiSuggestions: Option<seq<string>>)

  /** The correctness filter buttons: all, correct, incorrect. */
  datatype Correctness = AllAttempts | CorrectOnly | IncorrectOnly

  /** The AI-quality filter buttons: all, high, medium, low. */
  datatype QualityFilter = AnyQuality | High | Medium | Low

  /** `attempt.ai_quality_score || 0`: a missing score reads as 0. */
  function ScoreOrZero(a: AttemptView): int {
    a.aiQualityScore.GetOr(0)
  }

  /** The filter callback as written: a chain of rejections, then `true`. */
  predicate Keep(a: AttemptView, filter: Correctness, quality: QualityFilter) {
    if filter == CorrectOnly && !a.isCorrect then false
    else if filter == IncorrectOnly && a.isCorrect then false
    else if quality == High && ScoreOrZero(a) < 7 then false
    else if quality == Medium && (ScoreOrZero(a) < 4 || ScoreOrZero(a) >= 7) then false
    else if quality == Low && ScoreOrZero(a) >= 4 then false
    else true
  }

  /** The correctness buttons: keep everything, only correct or only incorrect attempts. */
  predicate MatchesCorrectness(filter: Correctness, isCorrect: bool) {
    match filter
    case AllAttempts => true
    case CorrectOnly => isCorrect
    case IncorrectOnly => !isCorrect
  }

  /** The quality bands: high is 7 and up, medium 4 to 6, low below 4. */
  predicate InBand(quality: QualityFilter, score: int) {
    match quality
    case AnyQuality => true
    case High => score >= 7
    case Medium => 4 <= score < 7
    case Low => score < 4
  }

  /** The rejection chain keeps exactly the attempts in the chosen correctness class and quality band. */
  lemma KeepMeansBothFilters(a: AttemptView, filter: Correctness, quality: QualityFilter)
    ensures Keep(a, filter, quality) <==>
            MatchesCorrectness(filter, a.isCorrect) && InBand(quality, ScoreOrZero(a))
  {
    match quality
    case AnyQuality =>
    case High =>
    case Medium =>
    case Low =>
  }

  /** `attempts.filter(...)`: the kept attempts, in their original order. */
  function FilteredAttempts(attempts: seq<AttemptView>, filter: Correctness, quality: QualityFilter): (r: seq<AttemptView>)
    ensures |r| <= |attempts|
    ensures forall i :: 0 <= i < |r| ==> Keep(r[i], filter, quality)
  {
    if attempts == [] then []
    else
      var rest := FilteredAttempts(attempts[1..], filter, quality);
      if Keep(attempts[0], filter, quality) then [attempts[0]] + rest else rest
  }

  /** An attempt is shown exactly when it is in the list and passes both filters. */
  lemma {:induction false} FilterMembers(attempts: seq<AttemptView>, filter: Correctness, quality: QualityFilter)
    ensures forall a :: a in FilteredAttempts(attempts, filter, quality) <==> a in attempts && Keep(a, filter, quality)
  {
    if attempts != [] {
      FilterMembers(attempts[1..], filter, quality);
      assert attempts == [attempts[0]] + attempts[1..];
    }
  }

  /**
   * Filtering distributes over concatenation: the kept attempts keep their
   * order and their multiplicity, each one kept or dropped where it stands.
   */
  lemma {:induction false} FilterKeepsOrder(a: seq<AttemptView>, b: seq<AttemptView>,
                                            filter: Correctness, quality: QualityFilter)
    ensures FilteredAttempts(a + b, filter, quality) == FilteredAttempts(a, filter, quality) + FilteredAttempts(b, filter, quality)
  {
    if a == [] {
      assert a + b == b;
    } else {
      assert (a + b)[0] == a[0] && (a + b)[1..] == a[1..] + b;
      FilterKeepsOrder(a[1..], b, filter, quality);
    }
  }

  /** With both filters on "all", every attempt is shown. */
  lemma {:induction false} NoFilterShowsAll(attempts: seq<AttemptView>)
    ensures FilteredAttempts(attempts, AllAttempts, AnyQuality) == attempts
  {
    if attempts != [] {
      NoFilterShowsAll(attempts[1..]);
      assert attempts == [attempts[0]] + attempts[1..];
    }
  }

  /** Filtering what is already filtered changes nothing. */
  lemma {:induction false} FilterIdempotent(attempts: seq<AttemptView>, filter: Correctness, quality: QualityFilter)
    ensures var once := FilteredAttempts(attempts, filter, quality);
            FilteredAttempts(once, filter, quality) == once
  {
    if attempts != [] {
      FilterIdempotent(attempts[1..], filter, quality);
      var rest := FilteredAttempts(attempts[1..], filter, quality);
      if Keep(attempts[0], filter, quality) {
        assert ([attempts[0]] + rest)[1..] == rest;
      }
    }
  }

  /** The high, medium and low bands split the attempts of any correctness class without overlap or gap. */
  lemma {:induction false} QualityBandsPartition(attempts: seq<AttemptView>, filter: Correctness)
    ensures |FilteredAttempts(attempts, filter, High)| + |FilteredAttempts(attempts, filter, Medium)|
            + |FilteredAttempts(attempts, filter, Low)| == |FilteredAttempts(attempts, filter, AnyQuality)|
  {
    if attempts != [] {
      QualityBandsPartition(attempts[1..], filter);
      KeepMeansBothFilters(attempts[0], filter, High);
      KeepMeansBothFilters(attempts[0], filter, Medium);
      KeepMeansBothFilters(attempts[0], filter, Low);
      KeepMeansBothFilters(attempts[0], filter, AnyQuality);
    }
  }

  /** The correct and the incorrect attempts together are all attempts, in any quality band. */
  lemma {:induction false} CorrectnessPartition(attempts: seq<AttemptView>, quality: QualityFilter)
    ensures |FilteredAttempts(attempts, CorrectOnly, quality)| + |FilteredAttempts(attempts, IncorrectOnly, quality)|
            == |FilteredAttempts(attempts, AllAttempts, quality)|
  {
    if attempts != [] {
      CorrectnessPartition(attempts[1..], quality);
      KeepMeansBothFilters(attempts[0], CorrectOnly, quality);
      KeepMeansBothFilters(attempts[0], IncorrectOnly, quality);
      KeepMeansBothFilters(attempts[0], AllAttempts, quality);
    }
  }

  const Excellent := "Exzellent"
  const Good := "Gut"
  const Satisfactory := "Befriedigend"
  const NeedsWork := "Verbesserungsbedarf"

  /** `getQualityLabel`: the word shown next to an AI score. */
  function QualityLabel(score: int): string {
    if score >= 8 then Excellent
    else if score >= 6 then Good
    else if score >= 4 then Satisfactory
    else NeedsWork
  }

  /** The position of a label on the scale, worst first. */
  function LabelRank(word: string): int {
    if word == Excellent then 3
    else if word == Good then 2
    else if word == Satisfactory then 1
    else 0
  }

  /** A higher score never gets a worse label. */
  lemma QualityLabelMonotone(s: int, t: int)
    requires s <= t
    ensures LabelRank(QualityLabel(s)) <= LabelRank(QualityLabel(t))
  {
    assert Excellent != Good && Excellent != Satisfactory && Good != Satisfactory;
  }

  /**
   * How labels sit in the filter bands: "Exzellent" is high, "Befriedigend"
   * medium, "Verbesserungsbedarf" exactly low, and "Gut" straddles medium and
   * high (6 is medium, 7 is high).
   */
  lemma LabelsAgainstBands(score: int)
    ensures QualityLabel(score) == Excellent ==> InBand(High, score)
    ensures QualityLabel(score) == Good ==> InBand(High, score) || InBand(Medium, score)
    ensures QualityLabel(score) == Satisfactory ==> InBand(Medium, score)
    ensures QualityLabel(score) == NeedsWork <==> InBand(Low, score)
  {
    assert Excellent != Good && Excellent != Satisfactory && Excellent != NeedsWork;
    assert Good != Satisfactory && Good != NeedsWork && Satisfactory != NeedsWork;
  }

  // ----- CSV export -----

  /** `s.replace(/"/g, '""')`: every double quote doubled. */
  function DoubleQuotes(s: string): (r: string)
    ensures |r| == |s| + QuoteCount(s)
  {
    if s == [] then []
    else if s[0] == '"' then "\"\"" + DoubleQuotes(s[1..])
    else [s[0]] + DoubleQuotes(s[1..])
  }

  /** The number of double quotes in `s`. */
  function QuoteCount(s: string): nat {
    if s == [] then 0 else (if s[0] == '"' then 1 else 0) + QuoteCount(s[1..])
  }

  /** A CSV reader's view of a quoted field's content: `""` is one quote, a lone quote ends the field early. */
  function CollapseQuotes(t: string): Option<string> {
    if t == [] then Some([])
    else if t[0] == '"' then
      if |t| >= 2 && t[1] == '"' then
        match CollapseQuotes(t[2..])
        case Some(u) => Some("\"" + u)
        case None => None
      else None
    else
      match CollapseQuotes(t[1..])
      case Some(u) => Some([t[0]] + u)
      case None => None
  }


  /** Reading a quoted field back: its content between the outer quotes, collapsed. */
  function Unquote(f: string): Option<string> {
    if |f| >= 2 && f[0] == '"' && f[|f| - 1] == '"' then CollapseQuotes(f[1..|f| - 1]) else None
  }

  /** Collapsing undoes doubling, and only a doubled text collapses: the two are inverse. */
  lemma {:induction false} CollapseIffDoubled(t: string, u: string)
    ensures CollapseQuotes(t) == Some(u) <==> t == DoubleQuotes(u)
    decreases |t|
  {
    if t == [] {
      if u != [] {
        assert |DoubleQuotes(u)| > 0;
      }
    } else if t[0] == '"' {
      if |t| >= 2 && t[1] == '"' {
        if u != [] && u[0] == '"' {
          CollapseIffDoubled(t[2..], u[1..]);
          assert DoubleQuotes(u) == "\"\"" + DoubleQuotes(u[1..]);
          assert t == "\"\"" + t[2..];
          assert "\"" + u[1..] == u;
        } else {
          if CollapseQuotes(t[2..]).Some? {
            assert ("\"" + CollapseQuotes(t[2..]).value)[0] == '"';
          }
          if u != [] { assert DoubleQuotes(u)[0] == u[0]; }
        }
      } else {
        if u != [] && u[0] == '"' {
          assert DoubleQuotes(u)[1] == '"';
        } else if u != [] {
          assert DoubleQuotes(u)[0] == u[0];
        }
      }
    } else {
      if u != [] && u[0] == t[0] {
        CollapseIffDoubled(t[1..], u[1..]);
        assert DoubleQuotes(u) == [u[0]] + DoubleQuotes(u[1..]);
        assert t == [t[0]] + t[1..];
        assert [t[0]] + u[1..] == u;
      } else {
        if CollapseQuotes(t[1..]).Some? {
          assert ([t[0]] + CollapseQuotes(t[1..]).value)[0] == t[0];
        }
        if u != [] && u[0] == '"' {
          assert DoubleQuotes(u)[0] == '"';
        } else if u != [] {
          assert DoubleQuotes(u)[0] == u[0];
        }
      }
    }
  }

  /**
   * Wrapping in quotes with the inner quotes doubled, as the export writes the
   * prompt, answer, reasoning and feedback fields: the field reads back as the
   * original text.
   */
  function Quoted(s: string): (f: string)
    ensures Unquote(f) == Some(s)
  {
    var f := "\"" + DoubleQuotes(s) + "\"";
    assert f[1..|f| - 1] == DoubleQuotes(s);
    CollapseIffDoubled(DoubleQuotes(s), s);
    f
  }

  /** A wrapped text whose quotes were not doubled reads back as something else as soon as it holds a quote. */
  lemma UndoubledQuoteBreaksField(s: string)
    requires QuoteCount(s) > 0
    ensures Unquote("\"" + s + "\"") != Some(s)
  {
    var f := "\"" + s + "\"";
    assert f[1..|f| - 1] == s;
    CollapseIffDoubled(s, s);
  }

  /** The twelve column titles of the export. */
  const Header: seq<string> := ["Zeitstempel", "Schüler", "Level", "Aufgabe", "Antwort", "Begründung",
                                "Korrekt", "Punkte", "Dosis", "KI-Feedback", "KI-Bewertung", "KI-Vorschläge"]

  /** `ai_quality_score || 'N/A'`: a missing or zero score prints as N/A. */
  function ScoreText(score: Option<int>): (r: string)
    ensures r == "N/A" <==> score.None? || score.value == 0
  {
    if score.None? || score.value == 0 then "N/A" else IntToString(score.value)
  }

  /**
   * The twelve fields of one attempt's row. The locale date text and the
   * decimal shown for the dose come in as `dateText` and `doseText`. Username
   * and level title are written as they are; the suggestions are joined with
   * "; " and wrapped in quotes without doubling the quotes inside.
   */
  function RowFields(a: AttemptView, dateText: string -> string, doseText: real -> string): (r: seq<string>)
    ensures |r| == |Header|
    ensures r[0] == dateText(a.timestamp) && r[1] == a.username && r[2] == a.levelTitle
    ensures r[3] == Quoted(a.promptText) && r[4] == Quoted(a.selectedAnswer)
    ensures r[5] == Quoted(a.reasoning) && r[9] == Quoted(a.aiFeedback)
    ensures Unquote(r[3]) == Some(a.promptText) && Unquote(r[4]) == Some(a.selectedAnswer)
    ensures Unquote(r[5]) == Some(a.reasoning) && Unquote(r[9]) == Some(a.aiFeedback)
    ensures r[6] == YesNo(a.isCorrect) && r[7] == IntToString(a.pointsGot) && r[8] == doseText(a.doseGotMsv)
    ensures r[10] == ScoreText(a.aiQualityScore)
    ensures r[11] == "\"" + Join("; ", a.aiSuggestions.GetOr([])) + "\""
  {
    var head := RowHead(a, dateText);
    var tail := RowTail(a, doseText);
    assert (head + tail)[6] == tail[0] && (head + tail)[7] == tail[1] && (head + tail)[8] == tail[2];
    assert (head + tail)[9] == tail[3] && (head + tail)[10] == tail[4] && (head + tail)[11] == tail[5];
    head + tail
  }

  /** Timestamp, student, level, prompt, answer and reasoning. */
  function RowHead(a: AttemptView, dateText: string -> string): (r: seq<string>)
    ensures |r| == 6 && r[0] == dateText(a.timestamp) && r[1] == a.username && r[2] == a.levelTitle
    ensures r[3] == Quoted(a.promptText) && r[4] == Quoted(a.selectedAnswer) && r[5] == Quoted(a.reasoning)
  {
    [dateText(a.timestamp), a.username, a.levelTitle,
     Quoted(a.promptText), Quoted(a.selectedAnswer), Quoted(a.reasoning)]
  }

  /** Correctness, points, dose, feedback, score and suggestions. */
  function RowTail(a: AttemptView, doseText: real -> string): (r: seq<string>)
    ensures |r| == 6 && r[0] == YesNo(a.isCorrect) && r[3] == Quoted(a.aiFeedback)
    ensures r[1] == IntToString(a.pointsGot) && r[2] == doseText(a.doseGotMsv) && r[4] == ScoreText(a.aiQualityScore)
    ensures r[5] == "\"" + Join("; ", a.aiSuggestions.GetOr([])) + "\""
  {
    [YesNo(a.isCorrect), IntToString(a.pointsGot), doseText(a.doseGotMsv),
     Quoted(a.aiFeedback), ScoreText(a.aiQualityScore),
     "\"" + Join("; ", a.aiSuggestions.GetOr([])) + "\""]
  }

  /** The correctness column. */
  function YesNo(b: bool): (r: string)
    ensures r == "Ja" <==> b
    ensures r == "Nein" <==> !b
  {
    if b then "Ja" else "Nein"
  }

  /** The suggestions field reads back wrongly once a suggestion holds a double quote. */
  lemma SuggestionQuoteBreaksField(a: AttemptView, dateText: string -> string, doseText: real -> string)
    requires QuoteCount(Join("; ", a.aiSuggestions.GetOr([]))) > 0
    ensures Unquote(RowFields(a, dateText, doseText)[11]) != Some(Join("; ", a.aiSuggestions.GetOr([])))
  {
    UndoubledQuoteBreaksField(Join("; ", a.aiSuggestions.GetOr([])));
  }

  /** `xs.map(f)`. */
  function MapSeq<T, U>(xs: seq<T>, f: T -> U): (r: seq<U>)
    ensures |r| == |xs| && forall i :: 0 <= i < |xs| ==> r[i] == f(xs[i])
  {
    seq(|xs|, i requires 0 <= i < |xs| => f(xs[i]))
  }

  /** Mapping one more element adds its image at the end. */
  lemma MapSeqAppend<T, U>(xs: seq<T>, a: T, f: T -> U)
    ensures MapSeq(xs + [a], f) == MapSeq(xs, f) + [f(a)]
  {
    var l := MapSeq(xs + [a], f);
    var r := MapSeq(xs, f) + [f(a)];
    forall i | 0 <= i < |l| ensures l[i] == r[i] {
      if i < |xs| { assert (xs + [a])[i] == xs[i]; }
    }
  }

  /** The lines of the export: the header, then one row per attempt, in list order. */
  function CsvLines(attempts: seq<AttemptView>, dateText: string -> string, doseText: real -> string): (r: seq<string>)
    ensures |r| == |attempts| + 1
    ensures r[0] == Join(",", Header)
    ensures forall i :: 0 <= i < |attempts| ==> r[i + 1] == RowLine(attempts[i], dateText, doseText)
  {
    var rows := MapSeq(attempts, (a: AttemptView) => RowLine(a, dateText, doseText));
    assert forall i :: 0 <= i < |attempts| ==> rows[i] == RowLine(attempts[i], dateText, doseText);
    var r := [Join(",", Header)] + rows;
    assert forall i :: 0 <= i < |attempts| ==> r[i + 1] == rows[i];
    r
  }

  /** One attempt's line: its fields joined with commas. */
  function RowLine(a: AttemptView, dateText: string -> string, doseText: real -> string): string {
    Join(",", RowFields(a, dateText, doseText))
  }

  /**
   * `exportAttempts`' file content: the lines joined with newlines. It covers
   * the whole attempt list, whatever the filters show.
   */
  function ExportAttempts(attempts: seq<AttemptView>, dateText: string -> string, doseText: real -> string): string {
    Join("\n", CsvLines(attempts, dateText, doseText))
  }

  /** With no attempts the export is the header line alone. */
  lemma EmptyExportIsHeader(dateText: string -> string, doseText: real -> string)
    ensures ExportAttempts([], dateText, doseText) == Join(",", Header)
  {
  }

  /** Each further attempt adds exactly one line, its row, at the end of the export. */
  lemma ExportAppendsRow(attempts: seq<AttemptView>, a: AttemptView, dateText: string -> string, doseText: real -> string)
    ensures ExportAttempts(attempts + [a], dateText, doseText) ==
            ExportAttempts(attempts, dateText, doseText) + "\n" + RowLine(a, dateText, doseText)
  {
    var line := RowLine(a, dateText, doseText);
    CsvLinesAppend(attempts, a, dateText, doseText);
    JoinAppend("\n", CsvLines(attempts, dateText, doseText), line);
  }

  /** The lines of a longer list are the lines of the shorter one and one more row. */
  lemma CsvLinesAppend(attempts: seq<AttemptView>, a: AttemptView, dateText: string -> string, doseText: real -> string)
    ensures CsvLines(attempts + [a], dateText, doseText) ==
            CsvLines(attempts, dateText, doseText) + [RowLine(a, dateText, doseText)]
  {
    MapSeqAppend(attempts, a, (a: AttemptView) => RowLine(a, dateText, doseText));
  }
}
