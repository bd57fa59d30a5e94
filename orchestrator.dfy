/** Decision extraction of the orchestrator agent
    (backend/internal/agents/orchestrator.go): the model's answer is cut to
    its brace span and decoded into a routing decision; any failure gives the
    apology fallback, which never routes. The language-model call and the
    prompt are not part of this model; the JSON decoder and the value of
    `IntentAmbiguo` (declared outside the files modelled here) are
    parameters. */
module Orchestrator {
  import opened Text
  import opened JsonText

  /** `OrchestratorDecision`; the float64 `confidence` is carried as a real,
      since it is only copied. */
  datatype Decision = Decision(
    intent: String, confidence: real, shouldRoute: bool, routeTo: String, response: String, reasoning: String)

  /** The fields of `AgentOutput` that `parseDecision` fills. */
  datatype AgentOutput = AgentOutput(
    response: String, shouldRoute: bool, routeTo: String, intentDetected: String, confidence: real)

  const Apology: String := "Lo siento, hubo un error procesando tu mensaje. ¿Podrías reformularlo?"

  /** The answer given when the model's output cannot be read. */
  function Fallback(ambiguous: String): (o: AgentOutput)
    ensures o.response == Apology && !o.shouldRoute && o.routeTo == ""
    ensures o.intentDetected == ambiguous && o.confidence == 0.0
  {
    AgentOutput(Apology, false, "", ambiguous, 0.0)
  }

  /** `parseDecision`, with the brace span read the corrected way (see
      `JsonText.JsonSpan`). */
  function ParseDecision(responseText: String, decode: String -> Decoded<Decision>, ambiguous: String): (o: AgentOutput)
    ensures JsonSpan(TrimSpace(responseText)).None? ==> o == Fallback(ambiguous)
    ensures JsonSpan(TrimSpace(responseText)).Some? && decode(JsonSpan(TrimSpace(responseText)).value).DecodeError? ==>
      o == Fallback(ambiguous)
    ensures JsonSpan(TrimSpace(responseText)).Some? && decode(JsonSpan(TrimSpace(responseText)).value).Decoded? ==>
      var d := decode(JsonSpan(TrimSpace(responseText)).value).value;
      o.response == d.response && o.shouldRoute == d.shouldRoute && o.routeTo == d.routeTo &&
      o.intentDetected == d.intent && o.confidence == d.confidence
  {
    var span := JsonSpan(TrimSpace(responseText));
    if span.None? then Fallback(ambiguous)
    else
      match decode(span.value)
      case DecodeError(_) => Fallback(ambiguous)
      case Decoded(d) => AgentOutput(d.response, d.shouldRoute, d.routeTo, d.intent, d.confidence)
  }

  /** Routing happens only on a decoded decision that asks for it. */
  lemma RoutesOnlyOnDecision(responseText: String, decode: String -> Decoded<Decision>, ambiguous: String)
    ensures ParseDecision(responseText, decode, ambiguous).shouldRoute ==>
      JsonSpan(TrimSpace(responseText)).Some? &&
      decode(JsonSpan(TrimSpace(responseText)).value).Decoded? &&
      decode(JsonSpan(TrimSpace(responseText)).value).value.shouldRoute
  {
  }
}
