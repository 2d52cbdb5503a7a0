/**
 * How the level page turns a student's reasoning into a verdict: the text
 * extraction applied to the local language model's reply, the deterministic
 * keyword-and-length scorer used when no verdict arrives, the quality labels,
 * and the "AI first, local scorer otherwise" policy.
 */
module LevelFeedback {
  import opened Wrappers
  import opened Text

  /** The verdict shown under an answer and stored with the attempt. */
  datatype AIFeedback = AIFeedback(feedback: string, score: int, suggestions: seq<string>)

  // ---------------------------------------------------------------------------
  // Extracting the verdict text from the model's reply
  // ---------------------------------------------------------------------------

  const ThinkOpen: string := "<think>"
  const ThinkClose: string := "</think>"
  const FenceOpen: string := "```json"
  const FenceClose: string := "```"

  /**
   * Removes the leftmost `<think>...</think>` block (the lazy regex match):
   * from the first `<think>` to the first `</think>` after it. Without a
   * closing tag after the first opening one the text is unchanged.
   */
  function StripThink(s: string): string {
    match IndexOf(s, ThinkOpen, 0)
    case None => s
    case Some(i) =>
      match IndexOf(s, ThinkClose, i + |ThinkOpen|)
      case None => s
      case Some(j) => s[..i] + s[j + |ThinkClose|..]
  }

  /** The body of the leftmost ```` ```json ... ``` ```` fence, if there is one. */
  function FencedBody(s: string): Option<string> {
    match IndexOf(s, FenceOpen, 0)
    case None => None
    case Some(i) =>
      match IndexOf(s, FenceClose, i + |FenceOpen|)
      case None => None
      case Some(j) => Some(s[i + |FenceOpen|..j])
  }

  /** The text handed to the JSON parser: think block removed, trimmed, fence body if any. */
  function ExtractVerdictText(raw: string): string {
    var cleaned := Trim(StripThink(raw));
    match FencedBody(cleaned)
    case Some(body) => body
    case None => cleaned
  }

  /** A reply that has neither a think block nor a fence is parsed as the trimmed reply. */
  lemma ExtractPlainReply(raw: string)
    requires !Contains(raw, ThinkOpen)
    requires !Contains(Trim(raw), FenceOpen)
    ensures ExtractVerdictText(raw) == Trim(raw)
  {
  }

  /** Trimming the end never cuts into a prefix that ends in a non-space character. */
  lemma TrimEndKeepsPrefix(a: string, b: string)
    requires a != [] && !IsSpace(a[|a| - 1])
    ensures |TrimEnd(a + b)| >= |a| && TrimEnd(a + b)[..|a|] == a
  {
    var r := TrimEnd(a + b);
    assert (a + b)[|a| - 1] == a[|a| - 1];
    assert r[..|a|] == (a + b)[..|a|] == a;
  }

  /** A space-only head is what trimming the start removes. */
  lemma {:induction false} TrimStartDropsSpaces(w: string, c: string)
    requires AllSpace(w)
    requires c != [] && !IsSpace(c[0])
    ensures TrimStart(w + c) == c
    decreases |w|
  {
    if w != [] {
      assert (w + c)[0] == w[0] && IsSpace(w[0]);
      assert (w + c)[1..] == w[1..] + c;
      assert AllSpace(w[1..]) by {
        forall i | 0 <= i < |w| - 1 ensures IsSpace(w[1..][i]) { assert w[1..][i] == w[i + 1]; }
      }
      TrimStartDropsSpaces(w[1..], c);
    } else {
      assert w + c == c;
    }
  }

  /**
   * A think block at the head is removed with its tags, whatever the thoughts
   * hold as long as they do not contain the closing tag themselves.
   */
  lemma StripLeadingThink(t: string, tail: string)
    requires !Contains(t, ThinkClose)
    ensures StripThink(ThinkOpen + t + ThinkClose + tail) == tail
  {
    var raw := ThinkOpen + t + ThinkClose + tail;
    assert raw[..7] == ThinkOpen;
    assert IndexOf(raw, ThinkOpen, 0) == Some(0);
    var close := 7 + |t|;
    assert raw[close..close + 8] == ThinkClose;
    assert OccursAt(raw, ThinkClose, close);
    forall k | 7 <= k < close ensures !OccursAt(raw, ThinkClose, k) {
      ThinkCloseAbsentBefore(t, tail, k);
    }
    assert IndexOf(raw, ThinkClose, 7) == Some(close);
    assert raw[close + 8..] == tail;
  }

  /**
   * Inside the thoughts no closing tag starts: one lying wholly inside them is
   * excluded, and one running into the real closing tag would need a second
   * '<', which the tag has only at its start.
   */
  lemma ThinkCloseAbsentBefore(t: string, tail: string, k: nat)
    requires !Contains(t, ThinkClose)
    requires 7 <= k < 7 + |t|
    ensures !OccursAt(ThinkOpen + t + ThinkClose + tail, ThinkClose, k)
  {
    var raw := ThinkOpen + t + ThinkClose + tail;
    var close := 7 + |t|;
    if k + 8 <= close {
      assert raw[k..k + 8] == t[k - 7..k + 1];
      assert !OccursAt(t, ThinkClose, k - 7);
    } else if k + 8 <= |raw| {
      assert raw[k..k + 8][close - k] == raw[close] == '<';
      assert ThinkClose[close - k] != '<';
    }
  }

  /**
   * A fence at the head yields its body, as long as the body contains no
   * closing fence and does not end in a backtick (otherwise the lazy match
   * would stop earlier).
   */
  lemma FencedBodyAtHead(json: string, rest: string)
    requires !Contains(json + "``", FenceClose)
    ensures FencedBody(FenceOpen + json + FenceClose + rest) == Some(json)
  {
    var s := FenceOpen + json + FenceClose + rest;
    assert s[..7] == FenceOpen;
    assert IndexOf(s, FenceOpen, 0) == Some(0);
    var end := 7 + |json|;
    assert s[end..end + 3] == FenceClose;
    assert OccursAt(s, FenceClose, end);
    forall k | 7 <= k < end ensures !OccursAt(s, FenceClose, k) {
      FenceCloseAbsentBefore(json, rest, k);
    }
    assert IndexOf(s, FenceClose, 7) == Some(end);
    assert s[7..end] == json;
  }

  /** Before the real closing fence none starts: each candidate lies inside the body and two of the closing backticks. */
  lemma FenceCloseAbsentBefore(json: string, rest: string, k: nat)
    requires !Contains(json + "``", FenceClose)
    requires 7 <= k < 7 + |json|
    ensures !OccursAt(FenceOpen + json + FenceClose + rest, FenceClose, k)
  {
    var s := FenceOpen + json + FenceClose + rest;
    var inner := json + "``";
    assert s[7..9 + |json|] == inner;
    assert s[k..k + 3] == inner[k - 7..k - 4];
    assert !OccursAt(inner, FenceClose, k - 7);
  }

  /** Trimming whitespace followed by a text that starts and ends with non-spaces keeps that text in front. */
  lemma TrimKeepsSpacedHead(w: string, a: string, b: string)
    requires AllSpace(w)
    requires a != [] && !IsSpace(a[0]) && !IsSpace(a[|a| - 1])
    ensures |Trim(w + (a + b))| >= |a| && Trim(w + (a + b))[..|a|] == a
  {
    assert (a + b)[0] == a[0];
    TrimStartDropsSpaces(w, a + b);
    TrimEndKeepsPrefix(a, b);
  }

  /**
   * The usual reply of a reasoning model: a think block, whitespace, then the
   * JSON in a fence. What is parsed is exactly the fenced JSON.
   */
  lemma ExtractFencedReply(t: string, w: string, json: string, rest: string)
    requires !Contains(t, ThinkClose)
    requires AllSpace(w)
    requires !Contains(json + "``", FenceClose)
    ensures ExtractVerdictText(ThinkOpen + t + ThinkClose + (w + (FenceOpen + json + FenceClose + rest))) == json
  {
    var fenced := FenceOpen + json + FenceClose;
    var tail := w + (fenced + rest);
    StripLeadingThink(t, tail);
    HeadedByFence(w, json, rest);
  }

  /** After the think block: whitespace, then the fence; trimming and fence extraction give the JSON. */
  lemma HeadedByFence(w: string, json: string, rest: string)
    requires AllSpace(w)
    requires !Contains(json + "``", FenceClose)
    ensures FencedBody(Trim(w + (FenceOpen + json + FenceClose + rest))) == Some(json)
  {
    var fenced := FenceOpen + json + FenceClose;
    assert fenced[0] == '`' && fenced[|fenced| - 1] == '`';
    TrimKeepsSpacedHead(w, fenced, rest);
    FencedBodyOfPrefixed(json, Trim(w + (fenced + rest)));
  }

  /** Any text that starts with a fence yields that fence's body. */
  lemma FencedBodyOfPrefixed(json: string, c: string)
    requires !Contains(json + "``", FenceClose)
    requires |c| >= |FenceOpen + json + FenceClose| && c[..|FenceOpen + json + FenceClose|] == FenceOpen + json + FenceClose
    ensures FencedBody(c) == Some(json)
  {
    var fenced := FenceOpen + json + FenceClose;
    var after := c[|fenced|..];
    assert c == fenced + after;
    FencedBodyAtHead(json, after);
  }

  /** What came back from the local model endpoint. */
  datatype ModelReply =
    | RequestFailed                   // network error, non-OK status, or a body that is not JSON
    | Replied(response: Option<string>) // the `response` field of the reply body, if present

  /** The outcome of asking the model: an exception, or a verdict or null. */
  datatype AiAttempt = Threw | Returned(verdict: Option<AIFeedback>)

  /**
   * Asking the model for a verdict. A reply without a `response` string throws
   * (the `replace` call fails); otherwise the extracted text is parsed, and a
   * parse failure gives null. `parse` stands for `JSON.parse` followed by the
   * field mapping, as a partial function.
   */
  function GenerateAIFeedback(reply: ModelReply, parse: string -> Option<AIFeedback>): (r: AiAttempt)
    ensures r.Threw? <==> !(reply.Replied? && reply.response.Some?)
    ensures r.Returned? ==> r.verdict == parse(ExtractVerdictText(reply.response.value))
  {
    match reply
    case RequestFailed => Threw
    case Replied(None) => Threw
    case Replied(Some(text)) => Returned(parse(ExtractVerdictText(text)))
  }

  /** The verdict the caller keeps: only a returned, non-null one. */
  function ModelVerdict(reply: ModelReply, parse: string -> Option<AIFeedback>): Option<AIFeedback> {
    match GenerateAIFeedback(reply, parse)
    case Returned(Some(v)) => Some(v)
    case _ => None
  }

  // ---------------------------------------------------------------------------
  // The local fallback scorer
  // ---------------------------------------------------------------------------

  /**
   * What the keyword and regex matchers extract from the reasoning and the
   * task prompt. `categoryHits[k]` is how many terms of category k (basic,
   * intermediate, advanced, protection, physics) occur in the lower-cased
   * reasoning; the three context flags combine a task keyword with a
   * reasoning keyword.
   */
  datatype ReasoningFeatures = ReasoningFeatures(
    words: nat,
    sentences: nat,
    categoryHits: seq<nat>,
    hasExplanation: bool,
    hasComparison: bool,
    hasConclusion: bool,
    hasQuantification: bool,
    shoppingProtection: bool,
    dosimetryUnit: bool,
    medicalTherapy: bool)

  /** Weight of one matched term per category: advanced 3, intermediate 2, the rest 1. */
  const CategoryWeights: seq<nat> := [1, 2, 3, 1, 1]

  /** Number of terms listed per category. */
  const CategorySizes: seq<nat> := [5, 8, 8, 7, 8]

  /** Features the matchers can produce: one hit count per category, at most its number of terms. */
  predicate ValidFeatures(f: ReasoningFeatures) {
    |f.categoryHits| == |CategoryWeights| &&
    forall k :: 0 <= k < |f.categoryHits| ==> f.categoryHits[k] <= CategorySizes[k]
  }

  /** `termScore` after the first k categories. */
  function TermScore(hits: seq<nat>, k: nat): nat
    requires k <= |hits| <= |CategoryWeights|
  {
    if k == 0 then 0
    else TermScore(hits, k - 1) + (if hits[k - 1] > 0 then hits[k - 1] * CategoryWeights[k - 1] else 0)
  }

  /** `usedCategories` after the first k categories. */
  function UsedCategories(hits: seq<nat>, k: nat): nat
    requires k <= |hits|
  {
    if k == 0 then 0 else UsedCategories(hits, k - 1) + (if hits[k - 1] > 0 then 1 else 0)
  }

  /** `usedCategories` counts exactly the categories with a hit, so it never exceeds their number. */
  lemma {:induction false} UsedCategoriesBound(hits: seq<nat>, k: nat)
    requires k <= |hits|
    ensures UsedCategories(hits, k) <= k
    ensures UsedCategories(hits, k) == 0 <==> forall i :: 0 <= i < k ==> hits[i] == 0
  {
    if k > 0 { UsedCategoriesBound(hits, k - 1); }
  }

  function Bonus(b: bool): int {
    if b then 1 else 0
  }

  function Min(a: int, b: int): int {
    if a <= b then a else b
  }

  function Max(a: int, b: int): int {
    if a >= b then a else b
  }

  /** Two points for a trimmed reasoning of 100 characters or more, one for 50 or more. */
  function LengthBonus(trimmedLength: nat): int {
    if trimmedLength >= 100 then 2 else if trimmedLength >= 50 then 1 else 0
  }

  /** One point per two term points, at most three. */
  function TermBonus(termScore: nat): int {
    Min(3, termScore / 2)
  }

  /** Two points for a correct answer, one off for a wrong one. */
  function CorrectnessBonus(isCorrect: bool): int {
    if isCorrect then 2 else -1
  }

  /** The unclamped sum: base 3 plus the length, structure, terminology, language and context bonuses, +2 or -1 for correctness. */
  function RawQualityScore(trimmedLength: nat, isCorrect: bool, f: ReasoningFeatures): int
    requires ValidFeatures(f)
  {
    var termScore := TermScore(f.categoryHits, |f.categoryHits|);
    var used := UsedCategories(f.categoryHits, |f.categoryHits|);
    3
    + LengthBonus(trimmedLength)
    + Bonus(f.sentences >= 3) + Bonus(f.words >= 20)
    + TermBonus(termScore) + Bonus(used >= 3)
    + Bonus(f.hasExplanation) + Bonus(f.hasComparison) + Bonus(f.hasConclusion) + Bonus(f.hasQuantification)
    + Bonus(f.shoppingProtection) + Bonus(f.dosimetryUnit) + Bonus(f.medicalTherapy)
    + CorrectnessBonus(isCorrect)
  }

  /** The local score of a reasoning: the raw score clamped to 1..10. */
  function QualityScore(reasoning: string, isCorrect: bool, f: ReasoningFeatures): (r: int)
    requires ValidFeatures(f)
    ensures 1 <= r <= 10
  {
    Min(10, Max(1, RawQualityScore(|Trim(reasoning)|, isCorrect, f)))
  }

  /** A correct answer always scores at least 5, so it never gets the low-quality tier. */
  lemma CorrectAnswerScoresAtLeastFive(reasoning: string, f: ReasoningFeatures)
    requires ValidFeatures(f)
    ensures QualityScore(reasoning, true, f) >= 5
  {
  }

  /** With the same reasoning, a correct answer scores at least as high as a wrong one (3 points apart before clamping). */
  lemma CorrectnessRaisesScore(reasoning: string, f: ReasoningFeatures)
    requires ValidFeatures(f)
    ensures QualityScore(reasoning, true, f) >= QualityScore(reasoning, false, f)
    ensures RawQualityScore(|Trim(reasoning)|, true, f) == RawQualityScore(|Trim(reasoning)|, false, f) + 3
  {
  }

  const LowSuggestions: seq<string> := [
    "Schreibe mindestens 3-4 vollständige Sätze",
    "Verwende Fachbegriffe wie 'Radioaktivität', 'Strahlung', 'Dosis'",
    "Erkläre die physikalischen Zusammenhänge",
    "Begründe deine Entscheidung Schritt für Schritt"
  ]

  /** Feedback text for scores up to 3; the length test uses the untrimmed reasoning. */
  function LowQualityFeedback(reasoning: string, termScore: nat, hasExplanation: bool): string {
    if |reasoning| < 20 then
      "Deine Begründung ist viel zu kurz! Ein Wissenschaftler muss seine Gedanken ausführlich erklären. Schreibe mindestens 3-4 Sätze und erkläre, warum du diese Antwort gewählt hast."
    else if termScore == 0 then
      "Du verwendest keine Fachbegriffe! In der Physik ist präzise Sprache wichtig. Verwende Begriffe wie 'Radioaktivität', 'Strahlung', 'Dosis', 'Zerfall' oder 'Schutz'."
    else if !hasExplanation then
      "Du beschreibst nur, was du machst, aber nicht WARUM. Verwende Wörter wie 'weil', 'da', 'deshalb' um deine Überlegungen zu erklären."
    else
      "Deine Begründung ist noch sehr oberflächlich. Erkläre die physikalischen Zusammenhänge genauer und verwende mehr Fachbegriffe."
  }

  /** `s` when `b` holds, else nothing: one conditional `feedback += s`. */
  function If(b: bool, s: string): string {
    if b then s else ""
  }

  /** Feedback text for scores 4 to 6. */
  function MediumQualityFeedback(isCorrect: bool, termScore: nat, hasExplanation: bool, usedCategories: nat): string {
    var body :=
      if isCorrect then
        "Gute Antwort! Du zeigst solides Grundverständnis. "
        + If(termScore >= 3, "Deine Verwendung von Fachbegriffen ist angemessen. ")
        + If(hasExplanation, "Deine Erklärung ist nachvollziehbar. ")
        + "Mit etwas mehr Detail könntest du noch überzeugender argumentieren."
      else
        "Deine Begründung ist gut strukturiert, aber die Antwort ist nicht korrekt. "
        + If(termScore >= 2, "Du kennst die Fachbegriffe, ")
        + "aber überdenke die physikalischen Grundlagen noch einmal. "
        + If(hasExplanation, "Deine Denkweise ist nachvollziehbar, führt aber zum falschen Ergebnis.");
    body + If(usedCategories >= 2, " Du zeigst bereits gute Fachkompetenz!")
  }

  /** Feedback text for scores 7 to 10. */
  function HighQualityFeedback(isCorrect: bool, termScore: nat, usedCategories: nat, hasExplanation: bool, hasComparison: bool): string {
    if isCorrect then
      "Ausgezeichnete Begründung! Du argumentierst wie ein echter Wissenschaftler. "
      + If(termScore >= 5, "Deine Fachsprachenkompetenz ist beeindruckend. ")
      + If(hasExplanation, "Deine logische Argumentation ist vorbildlich. ")
      + If(hasComparison, "Du kannst verschiedene Optionen hervorragend gegeneinander abwägen. ")
      + If(usedCategories >= 3, "Du beherrschst verschiedene Fachbereiche der Physik. ")
      + "So macht wissenschaftliches Arbeiten richtig Spaß!"
    else
      "Deine Begründung ist von sehr hoher Qualität und zeigt tiefes wissenschaftliches Verständnis. "
      + If(termScore >= 4, "Du beherrschst die Fachsprache exzellent. ")
      + "Leider ist die gewählte Antwort nicht korrekt. "
      + If(hasExplanation, "Deine Argumentation ist logisch aufgebaut, aber überprüfe die physikalischen Grundlagen noch einmal. ")
      + "Mit deinen analytischen Fähigkeiten wirst du den Fehler sicher finden!"
  }

  /** The four medium-tier hints, before the list is cut to three. */
  function MediumSuggestions(isCorrect: bool, termScore: nat, hasExplanation: bool, hasQuantification: bool): seq<string> {
    [ if termScore < 3 then "Verwende mehr physikalische Fachbegriffe" else "Gute Verwendung von Fachbegriffen!",
      if !hasExplanation then "Erkläre deine Überlegungen mit 'weil', 'da', 'deshalb'" else "Gute Erklärungsstruktur!",
      if isCorrect then "Vertiefe dein Wissen mit weiteren Details" else "Überprüfe die physikalischen Grundlagen",
      if !hasQuantification then "Verwende konkrete Zahlen und Einheiten (mSv, etc.)" else "Gut, dass du Zahlen verwendest!" ]
  }

  /** The three high-tier hints. */
  function HighSuggestions(isCorrect: bool, score: int, usedCategories: nat): seq<string> {
    [ if isCorrect then "Exzellente Argumentation! Weiter so!" else "Sehr gute Begründung, aber überprüfe das Ergebnis",
      if score >= 9 then "Du argumentierst auf Expertenniveau!" else "Du könntest noch mehr Details erklären",
      if usedCategories >= 3 then "Hervorragende Fachsprachenkompetenz!" else "Versuche noch vielfältigere Fachbegriffe zu verwenden" ]
  }

  /** `s.slice(0, n)`. */
  function Take<T>(s: seq<T>, n: nat): (r: seq<T>)
    ensures |r| <= n && |r| <= |s| && r == s[..|r|]
    ensures |s| <= n ==> r == s
    ensures |r| == if |s| <= n then |s| else n
  {
    if |s| <= n then s else s[..n]
  }

  /** The verdict of the tier a score falls into: its feedback text and at most three of its hints. */
  function TierFeedback(reasoning: string, isCorrect: bool, f: ReasoningFeatures,
                        termScore: nat, used: nat, score: int): (r: AIFeedback)
    ensures r.score == score && |r.suggestions| <= 3
  {
    if score <= 3 then
      AIFeedback(LowQualityFeedback(reasoning, termScore, f.hasExplanation), score, Take(LowSuggestions, 3))
    else if score <= 6 then
      AIFeedback(MediumQualityFeedback(isCorrect, termScore, f.hasExplanation, used), score,
                 Take(MediumSuggestions(isCorrect, termScore, f.hasExplanation, f.hasQuantification), 3))
    else
      AIFeedback(HighQualityFeedback(isCorrect, termScore, used, f.hasExplanation, f.hasComparison), score,
                 Take(HighSuggestions(isCorrect, score, used), 3))
  }

  /** The local verdict: the clamped score and its tier's text and hints. */
  function LocalFeedback(reasoning: string, isCorrect: bool, f: ReasoningFeatures): (r: AIFeedback)
    requires ValidFeatures(f)
    ensures 1 <= r.score <= 10 && |r.suggestions| <= 3
  {
    TierFeedback(reasoning, isCorrect, f, TermScore(f.categoryHits, |f.categoryHits|),
                 UsedCategories(f.categoryHits, |f.categoryHits|), QualityScore(reasoning, isCorrect, f))
  }

  /** A low score gets the first three general hints; a correct answer never does. */
  lemma LowTierHints(reasoning: string, isCorrect: bool, f: ReasoningFeatures)
    requires ValidFeatures(f)
    requires QualityScore(reasoning, isCorrect, f) <= 3
    ensures LocalFeedback(reasoning, isCorrect, f).suggestions == LowSuggestions[..3]
  {
  }

  /** The medium tier keeps its first three hints: the fourth (numbers and units) is always cut off. */
  lemma MediumTierDropsUnitHint(reasoning: string, isCorrect: bool, f: ReasoningFeatures)
    requires ValidFeatures(f)
    requires 4 <= QualityScore(reasoning, isCorrect, f) <= 6
    ensures |LocalFeedback(reasoning, isCorrect, f).suggestions| == 3
    ensures LocalFeedback(reasoning, isCorrect, f).suggestions ==
      MediumSuggestions(isCorrect, TermScore(f.categoryHits, 5), f.hasExplanation, f.hasQuantification)[..3]
  {
  }

  /** The high tier's first hint says whether the answer itself was right. */
  lemma HighTierHints(reasoning: string, isCorrect: bool, f: ReasoningFeatures)
    requires ValidFeatures(f)
    requires 7 <= QualityScore(reasoning, isCorrect, f)
    ensures |LocalFeedback(reasoning, isCorrect, f).suggestions| == 3
    ensures LocalFeedback(reasoning, isCorrect, f).suggestions[0] ==
      (if isCorrect then "Exzellente Argumentation! Weiter so!" else "Sehr gute Begründung, aber überprüfe das Ergebnis")
  {
  }

  /** The loop over the term categories: `termScore` and `usedCategories`. */
  method CountTerms(f: ReasoningFeatures) returns (termScore: nat, usedCategories: nat)
    requires ValidFeatures(f)
    ensures termScore == TermScore(f.categoryHits, |f.categoryHits|)
    ensures usedCategories == UsedCategories(f.categoryHits, |f.categoryHits|)
  {
    termScore, usedCategories := 0, 0;
    var k := 0;
    while k < |f.categoryHits|
      invariant k <= |f.categoryHits|
      invariant termScore == TermScore(f.categoryHits, k)
      invariant usedCategories == UsedCategories(f.categoryHits, k)
    {
      var hits := f.categoryHits[k];
      if hits > 0 {
        usedCategories := usedCategories + 1;
        termScore := termScore + hits * CategoryWeights[k];
      }
      k := k + 1;
    }
  }

  /** The scoring half of the local scorer: the category loop, the chain of bonuses and the clamp. */
  method ScoreReasoning(reasoning: string, isCorrect: bool, f: ReasoningFeatures)
    returns (qualityScore: int, termScore: nat, usedCategories: nat)
    requires ValidFeatures(f)
    ensures termScore == TermScore(f.categoryHits, |f.categoryHits|)
    ensures usedCategories == UsedCategories(f.categoryHits, |f.categoryHits|)
    ensures qualityScore == QualityScore(reasoning, isCorrect, f)
  {
    var reasoningLength := |Trim(reasoning)|;
    termScore, usedCategories := CountTerms(f);
    qualityScore := 3;
    if reasoningLength >= 100 { qualityScore := qualityScore + 2; }
    else if reasoningLength >= 50 { qualityScore := qualityScore + 1; }
    assert qualityScore == 3 + LengthBonus(reasoningLength);
    // each satisfied criterion adds one point
    qualityScore := qualityScore + Bonus(f.sentences >= 3) + Bonus(f.words >= 20);
    qualityScore := qualityScore + TermBonus(termScore) + Bonus(usedCategories >= 3);
    qualityScore := qualityScore + Bonus(f.hasExplanation) + Bonus(f.hasComparison);
    qualityScore := qualityScore + Bonus(f.hasConclusion) + Bonus(f.hasQuantification);
    qualityScore := qualityScore + Bonus(f.shoppingProtection) + Bonus(f.dosimetryUnit) + Bonus(f.medicalTherapy);
    assert qualityScore + CorrectnessBonus(isCorrect) == RawQualityScore(reasoningLength, isCorrect, f);
    if isCorrect { qualityScore := qualityScore + 2; } else { qualityScore := qualityScore - 1; }
    qualityScore := Min(10, Max(1, qualityScore));
  }

  /** The whole local scorer: the score, then the tier's text and at most three of its hints. */
  method LocalDemoFeedback(reasoning: string, isCorrect: bool, f: ReasoningFeatures) returns (fb: AIFeedback)
    requires ValidFeatures(f)
    ensures fb == LocalFeedback(reasoning, isCorrect, f)
  {
    var qualityScore, termScore, usedCategories := ScoreReasoning(reasoning, isCorrect, f);
    fb := TierFeedback(reasoning, isCorrect, f, termScore, usedCategories, qualityScore);
  }

  /**
   * The verdict the page uses: the model's when it returned one, the local
   * scorer's when the request threw or the reply did not parse. No error
   * leaves this method.
   */
  method EvaluateReasoningWithAI(reasoning: string, isCorrect: bool, reply: ModelReply,
                                 parse: string -> Option<AIFeedback>, f: ReasoningFeatures)
    returns (r: AIFeedback)
    requires ValidFeatures(f)
    ensures ModelVerdict(reply, parse).Some? ==> r == ModelVerdict(reply, parse).value
    ensures ModelVerdict(reply, parse).None? ==> r == LocalFeedback(reasoning, isCorrect, f)
  {
    var attempt := GenerateAIFeedback(reply, parse);
    if attempt.Returned? && attempt.verdict.Some? {
      r := attempt.verdict.value;
    } else {
      r := LocalDemoFeedback(reasoning, isCorrect, f);
    }
  }

  /** Reaching the model at all is not needed for a usable verdict: a failed request yields the local one. */
  lemma FailedRequestFallsBack(parse: string -> Option<AIFeedback>)
    ensures ModelVerdict(RequestFailed, parse).None?
    ensures ModelVerdict(Replied(None), parse).None?
  {
  }

  /** The label next to a score in the feedback card. */
  function QualityText(score: int): (r: string)
    ensures r == "Exzellent" <==> score >= 9
    ensures r == "Sehr gut" <==> score == 8
    ensures r == "Gut" <==> 6 <= score < 8
    ensures r == "Befriedigend" <==> 4 <= score < 6
    ensures r == "Verbesserungsbedarf" <==> score < 4
  {
    if score >= 9 then "Exzellent"
    else if score >= 8 then "Sehr gut"
    else if score >= 6 then "Gut"
    else if score >= 4 then "Befriedigend"
    else "Verbesserungsbedarf"
  }
}
