/**
 * The `evaluate-reasoning` edge function: it answers the CORS preflight,
 * validates the request, falls back to rule-based feedback when no API key
 * is configured or anything throws, and otherwise turns the chat model's
 * text into a score (by a regular expression, default 5) and a short list
 * of suggestions.
 */
module EvaluateReasoning {
  import opened Wrappers
  import opened Text

  /** The JSON body the function returns on success and on the error path. */
  datatype Evaluation = Evaluation(feedback: string, qualityScore: int, suggestions: seq<string>)

  // ---------------------------------------------------------------------------
  // The score regex  /(\d+)\/10|(\d+) von 10|Bewertung:?\s*(\d+)/i
  // ---------------------------------------------------------------------------

  /** The length of the run of ASCII digits starting at `p` (what a greedy `\d+` or `\d*` takes). */
  function DigitRun(s: string, p: nat): (n: nat)
    requires p <= |s|
    ensures p + n <= |s| && AllDigits(s[p..p + n])
    ensures p + n == |s| || !IsDigit(s[p + n])
    decreases |s| - p
  {
    if p < |s| && IsDigit(s[p]) then
      var n := 1 + DigitRun(s, p + 1);
      assert s[p..p + n] == [s[p]] + s[p + 1..p + n];
      n
    else 0
  }

  /** The length of the run of `\s` characters starting at `p`. */
  function SpaceRun(s: string, p: nat): (n: nat)
    requires p <= |s|
    ensures p + n <= |s| && AllSpace(s[p..p + n])
    ensures p + n == |s| || !IsSpace(s[p + n])
    decreases |s| - p
  {
    if p < |s| && IsSpace(s[p]) then
      var n := 1 + SpaceRun(s, p + 1);
      assert s[p..p + n] == [s[p]] + s[p + 1..p + n];
      n
    else 0
  }

  /** The lower-case literal `lit` occurs at `p`, ignoring ASCII case (the `/i` flag). */
  predicate LiteralAt(s: string, p: nat, lit: string) {
    p + |lit| <= |s| && Lower(s[p..p + |lit|]) == lit
  }

  /**
   * The match of the score regex that starts at `p`, if any, as the value of
   * its captured digits. The alternatives are tried in their written order.
   */
  function MatchAt(s: string, p: nat): (r: Option<nat>)
    requires p <= |s|
    ensures r.Some? ==> exists k :: p <= k < |s| && IsDigit(s[k])
  {
    var n := DigitRun(s, p);
    if n > 0 && LiteralAt(s, p + n, "/10") then
      assert IsDigit(s[p..p + n][0]);
      Some(DigitsValue(s[p..p + n]))
    else if n > 0 && LiteralAt(s, p + n, " von 10") then
      assert IsDigit(s[p..p + n][0]);
      Some(DigitsValue(s[p..p + n]))
    else if LiteralAt(s, p, "bewertung") then
      var q := p + 9;
      var q' := if q < |s| && s[q] == ':' then q + 1 else q;
      var d := q' + SpaceRun(s, q');
      var m := DigitRun(s, d);
      if m > 0 then
        assert IsDigit(s[d..d + m][0]);
        Some(DigitsValue(s[d..d + m]))
      else None
    else None
  }

  /** The leftmost match at or after `from`: `String.prototype.match` without the `g` flag. */
  function ScoreMatch(s: string, from: nat): (r: Option<nat>)
    requires from <= |s|
    ensures r.None? <==> forall p :: from <= p <= |s| ==> MatchAt(s, p).None?
    ensures r.Some? ==>
              exists p :: from <= p <= |s| && MatchAt(s, p) == r && forall q :: from <= q < p ==> MatchAt(s, q).None?
    decreases |s| - from
  {
    var here := MatchAt(s, from);
    if here.Some? then here
    else if from == |s| then None
    else ScoreMatch(s, from + 1)
  }

  /** `scoreMatch ? parseInt(...) : 5`: the captured number, not clamped to 1..10. */
  function ExtractQualityScore(text: string): (score: nat)
    ensures ScoreMatch(text, 0).None? ==> score == 5
    ensures ScoreMatch(text, 0).Some? ==> score == ScoreMatch(text, 0).value
  {
    ScoreMatch(text, 0).GetOr(5)
  }

  /** A run of exactly `k` digits at `p` is what `DigitRun` finds. */
  lemma DigitRunIs(s: string, p: nat, k: nat)
    requires p + k <= |s| && AllDigits(s[p..p + k])
    requires p + k == |s| || !IsDigit(s[p + k])
    ensures DigitRun(s, p) == k
  {
  }

  /** A match at the very start is the leftmost one. */
  lemma MatchAtStart(s: string)
    requires MatchAt(s, 0).Some?
    ensures ExtractQualityScore(s) == MatchAt(s, 0).value
  {
  }

  /** "N/10" at the start of the model's text is read back as N, whatever follows. */
  lemma SlashScoreRoundTrip(n: nat, rest: string)
    ensures ExtractQualityScore(NatToString(n) + "/10" + rest) == n
  {
    var ds := NatToString(n);
    var s := ds + "/10" + rest;
    assert s[0..|ds|] == ds;
    assert s[|ds|] == '/';
    DigitRunIs(s, 0, |ds|);
    assert s[|ds|..|ds| + 3] == "/10";
    DigitsValueOfNatToString(n);
    MatchAtStart(s);
  }

  /** "N von 10" at the start is read back as N, in any letter case. */
  lemma VonScoreRoundTrip(n: nat, v: string, rest: string)
    requires Lower(v) == " von 10"
    ensures ExtractQualityScore(NatToString(n) + v + rest) == n
  {
    var ds := NatToString(n);
    var s := ds + v + rest;
    assert s[0..|ds|] == ds;
    assert LowerChar(v[0]) == ' ';
    assert s[|ds|] == v[0] == ' ';
    DigitRunIs(s, 0, |ds|);
    assert Lower(s[|ds|..|ds| + 3])[0] == ' ';
    assert s[|ds|..|ds| + 7] == v;
    DigitsValueOfNatToString(n);
    MatchAtStart(s);
  }

  /** "Bewertung: N" at the start is read back as N when no further digit follows. */
  lemma BewertungScoreRoundTrip(n: nat, rest: string)
    requires rest == [] || !IsDigit(rest[0])
    ensures ExtractQualityScore("Bewertung: " + NatToString(n) + rest) == n
  {
    var ds := NatToString(n);
    var s := "Bewertung: " + ds + rest;
    BewertungMatchAt(s, ds, rest);
    DigitsValueOfNatToString(n);
    MatchAtStart(s);
  }

  /** The "bewertung" alternative captures the digits after "Bewertung: ". */
  lemma BewertungMatchAt(s: string, ds: string, rest: string)
    requires ds != [] && AllDigits(ds) && (rest == [] || !IsDigit(rest[0]))
    requires s == "Bewertung: " + ds + rest
    ensures MatchAt(s, 0) == Some(DigitsValue(ds))
  {
    assert !IsDigit(s[0]);
    DigitRunIs(s, 0, 0);
    assert Lower(s[0..9]) == "bewertung";
    assert s[9] == ':' && IsSpace(s[10]) && !IsSpace(s[11]);
    assert s[10..11] == " ";
    assert SpaceRun(s, 10) == 1;
    assert s[11..11 + |ds|] == ds;
    DigitRunIs(s, 11, |ds|);
    BewertungAlternative(s, |ds|);
  }

  /** Once the pieces of "Bewertung: N" are in place, `MatchAt` takes its third alternative. */
  lemma BewertungAlternative(s: string, m: nat)
    requires DigitRun(s, 0) == 0 && LiteralAt(s, 0, "bewertung")
    requires |s| > 10 && s[9] == ':' && SpaceRun(s, 10) == 1
    requires m > 0 && DigitRun(s, 11) == m
    ensures MatchAt(s, 0) == Some(DigitsValue(s[11..11 + m]))
  {
    var q' := if 9 < |s| && s[9] == ':' then 10 else 9;
    assert q' == 10;
    assert q' + SpaceRun(s, q') == 11;
  }

  /** Text without a single ASCII digit gets the default score 5. */
  lemma NoDigitsDefaultScore(s: string)
    requires forall i :: 0 <= i < |s| ==> !IsDigit(s[i])
    ensures ExtractQualityScore(s) == 5
  {
  }

  // ---------------------------------------------------------------------------
  // Rule-based fallback feedback
  // ---------------------------------------------------------------------------

  const ShortFeedback: string :=
    "Deine Begründung ist sehr kurz. Versuche deine Gedanken ausführlicher zu erklären und gehe auf die wissenschaftlichen Hintergründe ein."

  const ShortSuggestions: seq<string> := [
    "Erkläre die physikalischen Grundlagen ausführlicher",
    "Verwende mehr Fachbegriffe",
    "Beschreibe deine Denkschritte genauer"]

  const PositiveResponses: seq<string> := [
    "Ausgezeichnete Begründung! Du zeigst ein gutes Verständnis der physikalischen Zusammenhänge.",
    "Sehr gut! Deine Argumentation ist logisch nachvollziehbar und fachlich korrekt.",
    "Perfekt! Du hast die wichtigsten Aspekte erfasst und gut erklärt.",
    "Hervorragend! Deine Begründung zeigt tiefes Verständnis des Themas."]

  const PositiveSuggestions: seq<string> := [
    "Weiter so! Deine Argumentation ist sehr gut",
    "Vertiefe dein Wissen mit weiteren Aufgaben",
    "Du könntest noch mehr Fachbegriffe verwenden"]

  const ConstructiveResponses: seq<string> := [
    "Deine Begründung zeigt Denkansätze, aber überdenke die physikalischen Grundlagen noch einmal. Achte besonders auf die Eigenschaften radioaktiver Strahlung.",
    "Du bist auf dem richtigen Weg, aber es gibt noch Verbesserungspotential. Denke an die Grundprinzipien der Kernphysik.",
    "Interessanter Ansatz, aber nicht ganz richtig. Wiederhole die Grundlagen über Atomkerne und radioaktiven Zerfall.",
    "Deine Überlegungen sind nachvollziehbar, führen aber zum falschen Schluss. Beschäftige dich nochmal mit den verschiedenen Strahlungsarten."]

  const ConstructiveSuggestions: seq<string> := [
    "Wiederhole die Grundlagen der Radioaktivität",
    "Achte auf die verschiedenen Strahlungsarten",
    "Denke an die Eigenschaften von Atomkernen",
    "Verwende mehr wissenschaftliche Begriffe"]

  /** The fallback score, by trimmed reasoning length and correctness. */
  function FallbackScore(trimmedLength: nat, isCorrect: bool): (score: int)
    ensures 3 <= score <= 8
    ensures trimmedLength < 20 ==> score == 3
    ensures trimmedLength >= 20 && isCorrect ==> score == 7 || score == 8
    ensures trimmedLength >= 20 && !isCorrect ==> score == 3 || score == 4
  {
    if trimmedLength < 20 then 3
    else if isCorrect then (if trimmedLength > 100 then 8 else 7)
    else if trimmedLength > 50 then 4 else 3
  }

  /**
   * What `generateFallbackFeedback` may return: the feedback text is one of
   * the branch's fixed texts (chosen at random), the score and the
   * suggestions are determined by the branch.
   */
  predicate IsFallbackFor(e: Evaluation, reasoning: string, isCorrect: bool) {
    var n := |Trim(reasoning)|;
    e.qualityScore == FallbackScore(n, isCorrect) &&
    if n < 20 then e.feedback == ShortFeedback && e.suggestions == ShortSuggestions
    else if isCorrect then e.feedback in PositiveResponses && e.suggestions == PositiveSuggestions
    else e.feedback in ConstructiveResponses && e.suggestions == ConstructiveSuggestions
  }

  /** `generateFallbackFeedback`; `Math.random` becomes a nondeterministic choice of the text. */
  method GenerateFallbackFeedback(reasoning: string, isCorrect: bool) returns (e: Evaluation)
    ensures IsFallbackFor(e, reasoning, isCorrect)
  {
    var reasoningLength := |Trim(reasoning)|;
    var feedback := "";
    var qualityScore := 5;
    var suggestions: seq<string> := [];
    if reasoningLength < 20 {
      feedback := ShortFeedback;
      qualityScore := 3;
      suggestions := ShortSuggestions;
    } else if isCorrect {
      var i :| 0 <= i < |PositiveResponses|;
      feedback := PositiveResponses[i];
      qualityScore := if reasoningLength > 100 then 8 else 7;
      suggestions := PositiveSuggestions;
    } else {
      var i :| 0 <= i < |ConstructiveResponses|;
      feedback := ConstructiveResponses[i];
      qualityScore := if reasoningLength > 50 then 4 else 3;
      suggestions := ConstructiveSuggestions;
    }
    e := Evaluation(feedback, qualityScore, suggestions);
  }

  /** The random choice only affects the text: two fallbacks for one input agree on score and suggestions. */
  lemma FallbackOnlyTextVaries(e1: Evaluation, e2: Evaluation, reasoning: string, isCorrect: bool)
    requires IsFallbackFor(e1, reasoning, isCorrect) && IsFallbackFor(e2, reasoning, isCorrect)
    ensures e1.qualityScore == e2.qualityScore && e1.suggestions == e2.suggestions
    ensures |Trim(reasoning)| < 20 ==> e1 == e2
  {
  }

  /** A fallback never scores a correct answer below an incorrect one, nor a longer reasoning below a shorter one. */
  lemma FallbackScoreMonotone(m: nat, n: nat, isCorrect: bool)
    requires m <= n
    ensures FallbackScore(m, isCorrect) <= FallbackScore(n, isCorrect)
    ensures FallbackScore(n, false) <= FallbackScore(n, true)
  {
  }

  /** The suggestion counts of the three branches: 3, 3 and 4. */
  lemma FallbackSuggestionCounts(e: Evaluation, reasoning: string, isCorrect: bool)
    requires IsFallbackFor(e, reasoning, isCorrect)
    ensures |e.suggestions| == (if |Trim(reasoning)| >= 20 && !isCorrect then 4 else 3)
  {
  }

  /** The fallback of the error path, for empty and incorrect reasoning: the short-reasoning branch, score 3. */
  lemma ErrorFallbackIsShort(e: Evaluation)
    requires IsFallbackFor(e, "", false)
    ensures e == Evaluation(ShortFeedback, 3, ShortSuggestions)
  {
    assert AllSpace("");
  }

  // ---------------------------------------------------------------------------
  // Suggestions derived from the model's text
  // ---------------------------------------------------------------------------

  const TermsHint := "Verwende mehr physikalische Fachbegriffe"
  const DetailHint := "Erkläre deine Gedanken ausführlicher"
  const ReviewHint := "Wiederhole die Grundlagen zu diesem Thema"
  const ConnectionsHint := "Achte auf die physikalischen Zusammenhänge"
  const PraiseHint := "Weiter so! Du bist auf dem richtigen Weg"
  const DefaultHints: seq<string> := [
    "Denke über die physikalischen Grundlagen nach",
    "Erkläre deine Überlegungen Schritt für Schritt"]

  /** The list `generateSuggestions` builds before the default and the limit to three. */
  function SuggestionCandidates(feedback: string, isCorrect: bool, reasoning: string): seq<string> {
    var low := Lower(feedback);
    (if Contains(low, "fachbegriff") then [TermsHint] else []) +
    (if Contains(low, "kurz") || |reasoning| < 50 then [DetailHint] else []) +
    (if !isCorrect then [ReviewHint, ConnectionsHint] else []) +
    (if Contains(low, "gut") || Contains(low, "richtig") then [PraiseHint] else [])
  }

  /** The first three of the candidates, or the two defaults when there are none. */
  function Suggestions(feedback: string, isCorrect: bool, reasoning: string): seq<string> {
    var c := SuggestionCandidates(feedback, isCorrect, reasoning);
    if c == [] then DefaultHints else if |c| <= 3 then c else c[..3]
  }

  /** `generateSuggestions`, pushing onto the list as the source does, then `slice(0, 3)`. */
  method GenerateSuggestions(feedback: string, isCorrect: bool, reasoning: string) returns (r: seq<string>)
    ensures r == Suggestions(feedback, isCorrect, reasoning)
    ensures 1 <= |r| <= 3
  {
    var low := Lower(feedback);
    var suggestions: seq<string> := [];
    if Contains(low, "fachbegriff") {
      suggestions := suggestions + [TermsHint];
    }
    if Contains(low, "kurz") || |reasoning| < 50 {
      suggestions := suggestions + [DetailHint];
    }
    if !isCorrect {
      suggestions := suggestions + [ReviewHint];
      suggestions := suggestions + [ConnectionsHint];
    }
    if Contains(low, "gut") || Contains(low, "richtig") {
      suggestions := suggestions + [PraiseHint];
    }
    assert suggestions == SuggestionCandidates(feedback, isCorrect, reasoning);
    if |suggestions| == 0 {
      suggestions := suggestions + [DefaultHints[0]];
      suggestions := suggestions + [DefaultHints[1]];
    }
    r := if |suggestions| <= 3 then suggestions else suggestions[..3];
    SuggestionsBounded(feedback, isCorrect, reasoning);
  }

  /** Never empty, never more than three. */
  lemma SuggestionsBounded(feedback: string, isCorrect: bool, reasoning: string)
    ensures 1 <= |Suggestions(feedback, isCorrect, reasoning)| <= 3
  {
  }

  /** For an incorrect answer the review hint always survives the limit: at most two items precede it. */
  lemma IncorrectAlwaysReviews(feedback: string, reasoning: string)
    ensures ReviewHint in Suggestions(feedback, false, reasoning)
  {
    var c := SuggestionCandidates(feedback, false, reasoning);
    var low := Lower(feedback);
    var pre := (if Contains(low, "fachbegriff") then [TermsHint] else []) +
               (if Contains(low, "kurz") || |reasoning| < 50 then [DetailHint] else []);
    assert c == pre + [ReviewHint, ConnectionsHint] +
                (if Contains(low, "gut") || Contains(low, "richtig") then [PraiseHint] else []);
    assert |pre| <= 2 && c[|pre|] == ReviewHint;
  }

  /** A correct answer with a long reasoning and a model text without any keyword gets the two defaults. */
  lemma QuietTextGetsDefaults(feedback: string, reasoning: string)
    requires |reasoning| >= 50
    requires !Contains(Lower(feedback), "fachbegriff") && !Contains(Lower(feedback), "kurz")
    requires !Contains(Lower(feedback), "gut") && !Contains(Lower(feedback), "richtig")
    ensures Suggestions(feedback, true, reasoning) == DefaultHints
  {
  }

  // ---------------------------------------------------------------------------
  // The request handler
  // ---------------------------------------------------------------------------

  /** The fields the handler destructures from the JSON body; a missing `is_correct` reads as false. */
  datatype RequestBody = RequestBody(
    taskPrompt: Option<string>,
    selectedAnswer: Option<string>,
    studentReasoning: Option<string>,
    isCorrect: bool,
    topic: Option<string>)

  /**
   * An incoming request; `body` is None when `req.json()` throws or yields
   * `null`. A JSON primitive destructures to a body with every field absent.
   */
  datatype Request = Request(httpMethod: string, body: Option<RequestBody>)

  /**
   * The chat-completion call: it threw (network error, unreadable JSON, no
   * `choices`), or it responded with a status and the first choice's content.
   */
  datatype ChatCall = CallThrew | Responded(status: int, content: Option<string>)

  datatype ResponseBody = PlainText(text: string) | ErrorJson(error: string) | EvaluationJson(evaluation: Evaluation)

  datatype Response = Response(status: int, body: ResponseBody)

  const MissingFields := "Missing required fields"
  const NoFeedback := "Feedback konnte nicht generiert werden."

  /** The request is complete enough to evaluate: prompt, answer and reasoning all truthy. */
  predicate Complete(b: RequestBody) {
    Given(b.taskPrompt) && Given(b.selectedAnswer) && Given(b.studentReasoning)
  }

  /** `choices[0]?.message?.content || 'Feedback konnte nicht generiert werden.'` */
  function ModelText(content: Option<string>): (text: string)
    ensures Given(content) ==> text == content.value
    ensures !Given(content) ==> text == NoFeedback
  {
    if Given(content) then content.value else NoFeedback
  }

  /** `openaiResponse.ok`. */
  predicate Ok(status: int) {
    200 <= status <= 299
  }

  /**
   * The handler. `apiKey` is `OPENAI_API_KEY`, `call` the outcome of the
   * chat-completion request should it be made; `called` says whether it is.
   */
  method Serve(req: Request, apiKey: Option<string>, call: ChatCall) returns (resp: Response, called: bool)
    ensures req.httpMethod == "OPTIONS" ==> resp == Response(200, PlainText("ok")) && !called
    ensures called <==> req.httpMethod != "OPTIONS" && req.body.Some? && Complete(req.body.value) && Given(apiKey)
    // an unreadable body, a failed call or a non-2xx status: status 500 with the error fallback
    ensures req.httpMethod != "OPTIONS" &&
            (req.body.None? || (called && (call.CallThrew? || !Ok(call.status)))) ==>
              resp == Response(500, EvaluationJson(Evaluation(ShortFeedback, 3, ShortSuggestions)))
    ensures req.httpMethod != "OPTIONS" && req.body.Some? && !Complete(req.body.value) ==>
              resp == Response(400, ErrorJson(MissingFields))
    // no API key: the rule-based fallback for the request's reasoning, status 200
    ensures req.httpMethod != "OPTIONS" && req.body.Some? && Complete(req.body.value) && !Given(apiKey) ==>
              resp.status == 200 && resp.body.EvaluationJson? &&
              IsFallbackFor(resp.body.evaluation, req.body.value.studentReasoning.value, req.body.value.isCorrect)
    // the model answered: its text, the score read from it, and the suggestions derived from it
    ensures called && call.Responded? && Ok(call.status) ==>
              var text := ModelText(call.content);
              var b := req.body.value;
              resp == Response(200, EvaluationJson(Evaluation(text, ExtractQualityScore(text),
                                                              Suggestions(text, b.isCorrect, b.studentReasoning.value))))
  {
    called := false;
    if req.httpMethod == "OPTIONS" {
      return Response(200, PlainText("ok")), false;
    }
    if req.body.None? {
      var fallback := GenerateFallbackFeedback("", false);
      ErrorFallbackIsShort(fallback);
      return Response(500, EvaluationJson(fallback)), false;
    }
    var b := req.body.value;
    if !Complete(b) {
      return Response(400, ErrorJson(MissingFields)), false;
    }
    if !Given(apiKey) {
      var fallback := GenerateFallbackFeedback(b.studentReasoning.value, b.isCorrect);
      return Response(200, EvaluationJson(fallback)), false;
    }
    called := true;
    if call.CallThrew? || !Ok(call.status) {
      var fallback := GenerateFallbackFeedback("", false);
      ErrorFallbackIsShort(fallback);
      return Response(500, EvaluationJson(fallback)), true;
    }
    var aiFeedback := ModelText(call.content);
    var qualityScore := ExtractQualityScore(aiFeedback);
    var suggestions := GenerateSuggestions(aiFeedback, b.isCorrect, b.studentReasoning.value);
    resp := Response(200, EvaluationJson(Evaluation(aiFeedback, qualityScore, suggestions)));
  }
}
