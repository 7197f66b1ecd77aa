/** The decisions of frontend/src/components/AnalysisResultDisplay.js: whether the
    stored analysis is shown as a structured report or as raw text, and the
    colour and wording of scores and priorities. JSON parsing is a parameter. */
module AnalysisResultDisplay {
  import opened Wrappers

  /** One improvement recommendation; only its priority drives a decision. */
  datatype Recommendation = Recommendation(category: string, priority: string, issue: string, text: string)

  /** The parsed analysis document, restricted to the fields the decisions
      read. */
  datatype ResultDoc = ResultDoc(overallScore: Option<real>, recommendations: Option<seq<Recommendation>>)

  /** The `analysisResult` prop: a string still to be parsed, or an
      already-parsed document. */
  datatype ResultInput = Unparsed(text: string) | Parsed(doc: ResultDoc)

  /** What is rendered. */
  datatype View = RawText(text: string) | Report(doc: ResultDoc)

  /** The parse-or-fallback at the top of the component. */
  function Present(input: ResultInput, parse: string -> Option<ResultDoc>): (v: View)
    ensures input.Parsed? ==> v == Report(input.doc)
    ensures input.Unparsed? && parse(input.text).Some? ==> v == Report(parse(input.text).value)
    ensures v.RawText? <==> input.Unparsed? && parse(input.text).None?
    ensures v.RawText? ==> v.text == input.text
  {
    match input
    case Parsed(doc) => Report(doc)
    case Unparsed(text) =>
      match parse(text)
      case Some(doc) => Report(doc)
      case None => RawText(text)
  }

  /** Raw text is shown only for a string that does not parse, and then the
      string exactly as stored; a document never falls back. */
  lemma RawOnlyOnParseFailure(text: string, doc: ResultDoc, parse: string -> Option<ResultDoc>)
    ensures Present(Parsed(doc), parse) == Report(doc)
    ensures parse(text).None? ==> Present(Unparsed(text), parse) == RawText(text)
  {
  }

  const Green: string := "#28a745"
  const Yellow: string := "#ffc107"
  const Red: string := "#dc3545"
  const Blue: string := "#17a2b8"

  /** `getScoreColor`; a missing score compares false and so is red. */
  function ScoreColor(score: Option<real>): (c: string)
    ensures c == Green <==> score.Some? && score.value >= 8.0
    ensures c == Yellow <==> score.Some? && 6.0 <= score.value < 8.0
    ensures c == Red <==> score.None? || score.value < 6.0
  {
    if score.Some? && score.value >= 8.0 then Green
    else if score.Some? && score.value >= 6.0 then Yellow
    else Red
  }

  /** How good a colour is: red, then yellow, then green. */
  function ScoreRank(c: string): nat {
    if c == Green then 2 else if c == Yellow then 1 else 0
  }

  /** A higher score never gets a worse colour. */
  lemma ScoreColorMonotone(a: real, b: real)
    requires a <= b
    ensures ScoreRank(ScoreColor(Some(a))) <= ScoreRank(ScoreColor(Some(b)))
  {
  }

  /** `getPriorityColor`. */
  function PriorityColor(priority: string): (c: string)
    ensures c == Red <==> priority == "high"
    ensures c == Yellow <==> priority == "medium"
    ensures c == Blue <==> priority != "high" && priority != "medium"
  {
    if priority == "high" then Red else if priority == "medium" then Yellow else Blue
  }

  /** `getPriorityText`. */
  function PriorityText(priority: string): (t: string)
    ensures t == "높음" <==> priority == "high"
    ensures t == "보통" <==> priority == "medium"
    ensures t == "낮음" <==> priority != "high" && priority != "medium"
  {
    if priority == "high" then "높음" else if priority == "medium" then "보통" else "낮음"
  }

  /** The badge's colour and its text always tell the same priority. */
  lemma PriorityBadgeAgrees(priority: string)
    ensures PriorityColor(priority) == Red <==> PriorityText(priority) == "높음"
    ensures PriorityColor(priority) == Yellow <==> PriorityText(priority) == "보통"
    ensures PriorityColor(priority) == Blue <==> PriorityText(priority) == "낮음"
  {
  }

  /** The recommendations section is rendered only for a non-empty list. */
  function RecommendationsShown(doc: ResultDoc): (shown: bool)
    ensures shown <==> doc.recommendations.Some? && |doc.recommendations.value| > 0
  {
    doc.recommendations.Some? && |doc.recommendations.value| > 0
  }

  /** `overall_score || '-'`: a score of 0 is shown as `-` like a missing one. */
  function ScoreText(score: Option<real>, show: real -> string): (t: string)
    ensures score.None? || score.value == 0.0 ==> t == "-"
    ensures score.Some? && score.value != 0.0 ==> t == show(score.value)
  {
    if score.Some? && score.value != 0.0 then show(score.value) else "-"
  }
}
