/** The chat endpoints of the API (backend/internal/controllers/chat_controller.go).
    `SendMessage` validates the request, stores the user's message, asks the
    orchestrator agent and, when it routes, the FAQ or auction agent for the
    reply, stores the reply, scores conversations of at least six messages
    and records score and category on the conversation. `GetScore` reports a
    fresh score with its reasons.

    What the agents' language models answer is an input (`ModelCall`), as are
    the JSON decoders, the fresh session id, the clock, and the smoothing of
    a new score against the previous one, which the source computes in
    floating point. */
module ChatController {
  import opened Text
  import opened JsonText
  import Validation
  import Sessions
  import Orchestrator
  import Scoring

  /** `models.ChatRequest` */
  datatype ChatRequest = ChatRequest(sessionId: String, message: String, channel: String)

  /** A model call: its error, or the text of the first part of the first
      candidate. */
  datatype ModelCall = CallFailed(error: String) | Answered(text: String)

  /** What the agents do with this request: the orchestrator's model call,
      and the replies of the FAQ and auction agents (`None` when the agent
      fails). */
  datatype Agents = Agents(orchestrator: ModelCall, faq: Option<String>, auction: Option<String>, scoring: ModelCall)

  /** The JSON body sent back: an error with its status, or the
      `ChatResponse` (success, status 200). */
  datatype ChatResult =
    | Refused(status: int, error: String)
    | Replied(sessionId: String, reply: String, leadScore: int, category: String)

  const BadRequest: int := 400
  const NotFound: int := 404
  const InternalError: int := 500

  const InvalidData: String := "Datos inválidos: "
  const ProcessingError: String := "Error procesando mensaje: "
  const ScoreError: String := "Error al calcular score: "
  const SessionNotFound: String := "Sesión no encontrada"

  const FaqAgent: String := "faq_agent"
  const AuctionAgent: String := "auction_agent"

  /** How many messages a conversation needs before it is scored: three
      exchanges. */
  const ScoringThreshold: int := 6

  // ----- Admission -----

  /** `ShouldBindJSON`: the decoder's outcome, then the `required` tags of
      `message` and `channel`, which refuse the empty string. The
      validator's wording of that refusal is the `requiredError` parameter. */
  function Bind(decoded: Decoded<ChatRequest>, requiredError: String): (r: Decoded<ChatRequest>)
    ensures r.Decoded? <==> decoded.Decoded? && decoded.value.message != "" && decoded.value.channel != ""
    ensures r.Decoded? ==> r.value == decoded.value
    ensures decoded.DecodeError? ==> r == decoded
  {
    match decoded
    case DecodeError(_) => decoded
    case Decoded(req) => if req.message == "" || req.channel == "" then DecodeError(requiredError) else decoded
  }

  datatype Admission = Rejected(error: String) | Admitted(request: ChatRequest)

  /** The checks of `SendMessage` before any session is touched, in their
      order: binding, then the message, then the session id, then the
      channel. The first failure decides the error; an admitted request
      carries the sanitised message. */
  function Admit(decoded: Decoded<ChatRequest>, requiredError: String): (a: Admission)
    ensures Bind(decoded, requiredError).DecodeError? ==>
      a == Rejected(InvalidData + Bind(decoded, requiredError).error)
    ensures Bind(decoded, requiredError).Decoded? ==>
      var req := decoded.value;
      var checked := Validation.ValidateAndSanitizeMessage(req.message);
      (checked.Rejected? ==> a == Rejected(checked.error.message)) &&
      (checked.Ok? && Validation.ValidateSessionId(req.sessionId).Some? ==>
        a == Rejected(Validation.ValidateSessionId(req.sessionId).value.message)) &&
      (checked.Ok? && Validation.ValidateSessionId(req.sessionId).None? && Validation.ValidateChannel(req.channel).Some? ==>
        a == Rejected(Validation.ValidateChannel(req.channel).value.message)) &&
      (a.Admitted? <==> checked.Ok? && Validation.ValidateSessionId(req.sessionId).None? &&
                        Validation.ValidateChannel(req.channel).None?) &&
      (a.Admitted? ==> a.request == req.(message := checked.text))
  {
    var bound := Bind(decoded, requiredError);
    if bound.DecodeError? then Rejected(InvalidData + bound.error)
    else
      var req := bound.value;
      var checked := Validation.ValidateAndSanitizeMessage(req.message);
      if checked.Rejected? then Rejected(checked.error.message)
      else
        var idError := Validation.ValidateSessionId(req.sessionId);
        if idError.Some? then Rejected(idError.value.message)
        else
          var channelError := Validation.ValidateChannel(req.channel);
          if channelError.Some? then Rejected(channelError.value.message)
          else Admitted(req.(message := checked.text))
  }

  /** What an admitted request is: a non-empty channel that is one of the
      three, a session id that is empty or of at most 100 allowed
      characters, and a message of at most 2000 runes with no injection
      pattern. */
  lemma AdmittedRequestIsClean(decoded: Decoded<ChatRequest>, requiredError: String)
    requires Admit(decoded, requiredError).Admitted?
    ensures var req := Admit(decoded, requiredError).request;
      req.channel != "" && ToLower(req.channel) in Validation.ValidChannels &&
      (req.sessionId == "" ||
       (|req.sessionId| <= Validation.MaxSessionIdLength &&
        forall i :: 0 <= i < |req.sessionId| ==> Validation.SessionIdChar(req.sessionId[i]))) &&
      |req.message| <= Validation.MaxMessageLength && !Validation.IsInjectionAttempt(req.message)
  {
    var req := decoded.value;
    Validation.AcceptedMessage(req.message);
    Validation.SessionIdAccepted(req.sessionId);
  }

  // ----- Reply selection -----

  /** The reply of a turn: the orchestrator's own response unless it routes
      to the FAQ or auction agent and that agent answers. */
  function SelectReply(decision: Orchestrator.AgentOutput, faq: Option<String>, auction: Option<String>): (reply: String)
    ensures !decision.shouldRoute ==> reply == decision.response
    ensures decision.shouldRoute && decision.routeTo == FaqAgent ==>
      reply == if faq.Some? then faq.value else decision.response
    ensures decision.shouldRoute && decision.routeTo == AuctionAgent ==>
      reply == if auction.Some? then auction.value else decision.response
    ensures decision.shouldRoute && decision.routeTo !in {FaqAgent, AuctionAgent} ==> reply == decision.response
  {
    if !decision.shouldRoute then decision.response
    else if decision.routeTo == FaqAgent then (if faq.Some? then faq.value else decision.response)
    else if decision.routeTo == AuctionAgent then (if auction.Some? then auction.value else decision.response)
    else decision.response
  }

  /** The reply is the orchestrator's response or the answer of the agent
      it routed to. */
  lemma ReplyFromRoutedAgent(decision: Orchestrator.AgentOutput, faq: Option<String>, auction: Option<String>)
    ensures var reply := SelectReply(decision, faq, auction);
      reply == decision.response ||
      (decision.shouldRoute && decision.routeTo == FaqAgent && faq == Some(reply)) ||
      (decision.shouldRoute && decision.routeTo == AuctionAgent && auction == Some(reply))
  {
  }

  /** When the orchestrator's answer cannot be read, the user gets the
      apology, whatever the sub-agents would have said. */
  lemma UnreadableDecisionApologises(
    text: String, decode: String -> Decoded<Orchestrator.Decision>, ambiguous: String,
    faq: Option<String>, auction: Option<String>)
    requires JsonSpan(TrimSpace(text)).None? || decode(JsonSpan(TrimSpace(text)).value).DecodeError?
    ensures SelectReply(Orchestrator.ParseDecision(text, decode, ambiguous), faq, auction) == Orchestrator.Apology
  {
  }

  // ----- Scoring of a turn -----

  /** The category `SendMessage` gives a (possibly smoothed) score. */
  function ControllerCategory(score: int): String {
    if score >= 85 then "hot" else if score >= 65 then "warm" else if score >= 45 then "cold" else "discarded"
  }

  /** The controller's thresholds are the scoring agent's. */
  lemma {:induction false} ControllerCategoryAgrees(score: int)
    ensures ControllerCategory(score) == Scoring.CategoryFor(score)
    ensures ControllerCategory(score) in {"hot", "warm", "cold", "discarded"}
  {
    if score >= 85 {
    } else if score >= 65 {
    } else if score >= 45 {
    } else {
    }
  }

  /** The score and category a turn ends with, and the lead it stores, if
      any. */
  datatype TurnScore = TurnScore(score: int, category: String, lead: Option<Sessions.Lead>)

  /** The score after a turn, given the conversation, the number of
      messages it holds with both new ones, and the lead stored before the
      turn. `smooth(prev, raw)` is the source's `int(0.7 * prev + 0.3 * raw)`. */
  function ScoreTurn(
    session: Sessions.Session, count: int, scoring: ModelCall, decode: String -> Decoded<Scoring.ScoringResponse>,
    existing: Option<Sessions.Lead>, smooth: (int, int) -> int, message: String, now: int): (t: TurnScore)
    ensures count < ScoringThreshold ==>
      t.score == session.leadScore && t.lead.None? &&
      t.category == if session.category == "" then "cold" else session.category
    ensures count >= ScoringThreshold && scoring.CallFailed? ==>
      t.score == 0 && t.category == "cold" && t.lead.None?
    ensures count >= ScoringThreshold && scoring.Answered? ==>
      var raw := Scoring.ScoringOf(scoring.text, decode).totalScore;
      t.score == (if existing.Some? && existing.value.score > 0 then smooth(existing.value.score, raw) else raw) &&
      t.category == Scoring.CategoryFor(t.score) &&
      t.lead == Some(Sessions.Lead(session.sessionId, session.channel, t.score, t.category, "", "", "", [], message,
                                   session.createdAt, now, map[]))
  {
    if count >= ScoringThreshold then
      match scoring
      case CallFailed(_) => TurnScore(0, "cold", None)
      case Answered(text) =>
        var raw := Scoring.ScoringOf(text, decode).totalScore;
        var score := if existing.Some? && existing.value.score > 0 then smooth(existing.value.score, raw) else raw;
        ControllerCategoryAgrees(score);
        var category := ControllerCategory(score);
        TurnScore(score, category, Some(Sessions.Lead(session.sessionId, session.channel, score, category, "", "", "", [],
                                                       message, session.createdAt, now, map[])))
    else
      TurnScore(session.leadScore, if session.category == "" then "cold" else session.category, None)
  }

  /** Without an earlier positive score, a scored turn takes the scoring
      agent's own score and category, so it lies in 0..100. */
  lemma FirstScoreIsAgents(
    session: Sessions.Session, count: int, text: String, decode: String -> Decoded<Scoring.ScoringResponse>,
    existing: Option<Sessions.Lead>, smooth: (int, int) -> int, message: String, now: int)
    requires count >= ScoringThreshold
    requires existing.None? || existing.value.score <= 0
    ensures var t := ScoreTurn(session, count, Answered(text), decode, existing, smooth, message, now);
      t.score == Scoring.ScoringOf(text, decode).totalScore && 0 <= t.score <= 100 &&
      t.category == Scoring.ScoringOf(text, decode).category
  {
    Scoring.ScoreAndCategoryConsistent(text, decode);
  }

  /** The category a turn ends with is never empty. */
  lemma TurnCategoryNonEmpty(
    session: Sessions.Session, count: int, scoring: ModelCall, decode: String -> Decoded<Scoring.ScoringResponse>,
    existing: Option<Sessions.Lead>, smooth: (int, int) -> int, message: String, now: int)
    ensures ScoreTurn(session, count, scoring, decode, existing, smooth, message, now).category != ""
  {
  }

  // ----- GetScore -----

  /** `models.ScoreResponse` as `GetScore` fills it, or an error. */
  datatype ScoreResult = ScoreRefused(status: int, error: String) | ScoreReport(score: int, category: String, reasons: seq<String>)

  /** Each entry with the marker in front, in order. */
  function Marked(marker: String, items: seq<String>): (r: seq<String>)
    ensures |r| == |items|
    ensures forall i :: 0 <= i < |items| ==> r[i] == marker + items[i]
  {
    if |items| == 0 then [] else Marked(marker, items[..|items| - 1]) + [marker + items[|items| - 1]]
  }

  const BoostMark: String := "✅ "
  const PenaltyMark: String := "⚠️ "

  /** The reasons of a score: the recommended action, the contact time and
      the follow-up type, then each boost and then each penalty. */
  function ScoreReasons(d: Scoring.ScoringData): (r: seq<String>)
    ensures |r| == 3 + |d.boosts| + |d.penalizaciones|
    ensures r[0] == d.accionRecomendada && r[1] == "Tiempo contacto: " + d.tiempoContacto
    ensures r[2] == "Seguimiento: " + d.tipoSeguimiento
    ensures forall i :: 0 <= i < |d.boosts| ==> r[3 + i] == BoostMark + d.boosts[i]
    ensures forall j :: 0 <= j < |d.penalizaciones| ==> r[3 + |d.boosts| + j] == PenaltyMark + d.penalizaciones[j]
  {
    [d.accionRecomendada, "Tiempo contacto: " + d.tiempoContacto, "Seguimiento: " + d.tipoSeguimiento] +
    Marked(BoostMark, d.boosts) + Marked(PenaltyMark, d.penalizaciones)
  }

  /** The loops of `GetScore` that append the boosts and the penalties. */
  method BuildReasons(d: Scoring.ScoringData) returns (reasons: seq<String>)
    ensures reasons == ScoreReasons(d)
  {
    var fixed := [d.accionRecomendada, "Tiempo contacto: " + d.tiempoContacto, "Seguimiento: " + d.tipoSeguimiento];
    reasons := fixed;
    var i := 0;
    while i < |d.boosts|
      invariant 0 <= i <= |d.boosts|
      invariant reasons == fixed + Marked(BoostMark, d.boosts[..i])
    {
      assert d.boosts[..i + 1][..i] == d.boosts[..i];
      reasons := reasons + [BoostMark + d.boosts[i]];
      i := i + 1;
    }
    assert d.boosts[..i] == d.boosts;
    var withBoosts := reasons;
    var j := 0;
    while j < |d.penalizaciones|
      invariant 0 <= j <= |d.penalizaciones|
      invariant reasons == withBoosts + Marked(PenaltyMark, d.penalizaciones[..j])
    {
      assert d.penalizaciones[..j + 1][..j] == d.penalizaciones[..j];
      reasons := reasons + [PenaltyMark + d.penalizaciones[j]];
      j := j + 1;
    }
    assert d.penalizaciones[..j] == d.penalizaciones;
  }

  // ----- The controller -----

  class Controller {
    const sessions: Sessions.SessionService

    constructor(sessions: Sessions.SessionService)
      ensures this.sessions == sessions
    {
      this.sessions := sessions;
    }

    /** `SendMessage`. A refused request changes nothing. An admitted one
        gets its conversation (made new if needed) and the user's message
        stored; a failed orchestrator call ends there with 500. Otherwise
        the reply is stored, the turn is scored, the lead is stored when the
        turn was scored, and the conversation takes the turn's score and
        category. */
    method SendMessage(
      decoded: Decoded<ChatRequest>, requiredError: String, freshId: String, now: int, agents: Agents,
      decodeDecision: String -> Decoded<Orchestrator.Decision>, ambiguous: String,
      decodeScoring: String -> Decoded<Scoring.ScoringResponse>, smooth: (int, int) -> int)
      returns (r: ChatResult)
      requires sessions.Valid()
      modifies sessions
      ensures sessions.Valid()
      ensures Admit(decoded, requiredError).Rejected? ==>
        r == Refused(BadRequest, Admit(decoded, requiredError).error) &&
        sessions.sessions == old(sessions.sessions) && sessions.leads == old(sessions.leads)
      ensures Admit(decoded, requiredError).Admitted? ==>
        var req := Admit(decoded, requiredError).request;
        var id := Sessions.SessionKey(req.sessionId, req.channel, freshId);
        var s1 := Sessions.WithMessage(Opened(old(sessions.sessions), id, req.channel, now),
                                       Sessions.Message("user", req.message, now), now);
        Turn(old(sessions.sessions), old(sessions.leads), id, s1, req.message, now, agents,
             decodeDecision, ambiguous, decodeScoring, smooth) ==
        (r, sessions.sessions, sessions.leads)
    {
      var admission := Admit(decoded, requiredError);
      var bound := Bind(decoded, requiredError);
      if bound.DecodeError? {
        return Refused(BadRequest, InvalidData + bound.error);
      }
      var req := bound.value;
      var checked := Validation.ValidateAndSanitizeMessage(req.message);
      if checked.Rejected? {
        return Refused(BadRequest, checked.error.message);
      }
      req := req.(message := checked.text);
      var idError := Validation.ValidateSessionId(req.sessionId);
      if idError.Some? {
        return Refused(BadRequest, idError.value.message);
      }
      var channelError := Validation.ValidateChannel(req.channel);
      if channelError.Some? {
        return Refused(BadRequest, channelError.value.message);
      }
      assert admission == Admitted(req);
      r := Converse(req, freshId, now, agents, decodeDecision, ambiguous, decodeScoring, smooth);
    }

    /** `SendMessage` from the session lookup on. */
    method Converse(
      req: ChatRequest, freshId: String, now: int, agents: Agents,
      decodeDecision: String -> Decoded<Orchestrator.Decision>, ambiguous: String,
      decodeScoring: String -> Decoded<Scoring.ScoringResponse>, smooth: (int, int) -> int)
      returns (r: ChatResult)
      requires sessions.Valid()
      modifies sessions
      ensures sessions.Valid()
      ensures
        var id := Sessions.SessionKey(req.sessionId, req.channel, freshId);
        var s1 := Sessions.WithMessage(Opened(old(sessions.sessions), id, req.channel, now),
                                       Sessions.Message("user", req.message, now), now);
        Turn(old(sessions.sessions), old(sessions.leads), id, s1, req.message, now, agents,
             decodeDecision, ambiguous, decodeScoring, smooth) ==
        (r, sessions.sessions, sessions.leads)
    {
      ghost var id := Sessions.SessionKey(req.sessionId, req.channel, freshId);
      ghost var stored := old(sessions.sessions);
      ghost var leads := old(sessions.leads);
      var session := sessions.GetOrCreateSession(req.sessionId, req.channel, freshId, now);
      assert session == Opened(stored, id, req.channel, now) && sessions.sessions == stored[id := session];
      ghost var s1 := Sessions.WithMessage(session, Sessions.Message("user", req.message, now), now);
      sessions.AddMessage(session.sessionId, "user", req.message, now);
      assert sessions.sessions == stored[id := s1];
      if agents.orchestrator.CallFailed? {
        return Refused(InternalError, ProcessingError + agents.orchestrator.error);
      }
      var decision := Orchestrator.ParseDecision(agents.orchestrator.text, decodeDecision, ambiguous);
      var reply := SelectReply(decision, agents.faq, agents.auction);
      r := Answer(session, s1, reply, req.message, now, agents.scoring, decodeScoring, smooth);
      MapOverride(stored, id, s1, sessions.sessions[id]);
      TurnWhenAnswered(stored, leads, id, s1, req.message, now, agents, decodeDecision, ambiguous, decodeScoring, smooth);
    }

    /** The answered part of a turn: the reply is stored after the user's
        message, the conversation is scored, and the score is recorded. */
    method Answer(
      session: Sessions.Session, ghost s1: Sessions.Session, reply: String, message: String, now: int,
      scoring: ModelCall, decodeScoring: String -> Decoded<Scoring.ScoringResponse>, smooth: (int, int) -> int)
      returns (r: ChatResult)
      requires sessions.Valid()
      requires session.sessionId in sessions.sessions && sessions.sessions[session.sessionId] == s1
      requires s1.channel == session.channel && s1.createdAt == session.createdAt
      requires s1.leadScore == session.leadScore && s1.category == session.category
      modifies sessions
      ensures sessions.Valid()
      ensures
        var id := session.sessionId;
        var s2 := Sessions.WithMessage(s1, Sessions.Message("assistant", reply, now), now);
        var leads := old(sessions.leads);
        var t := ScoreTurn(s2, |s2.messages|, scoring, decodeScoring,
                           if id in leads then Some(leads[id]) else None, smooth, message, now);
        r == Replied(id, reply, t.score, t.category) &&
        sessions.sessions == old(sessions.sessions)[id := s2.(leadScore := t.score, category := t.category, updatedAt := now)] &&
        sessions.leads == (if t.lead.Some? then leads[id := Sessions.StoredLead(t.lead.value, id in leads, now)] else leads)
    {
      var id := session.sessionId;
      ghost var stored := old(sessions.sessions);
      ghost var leads := old(sessions.leads);
      ghost var s2 := Sessions.WithMessage(s1, Sessions.Message("assistant", reply, now), now);
      sessions.AddMessage(id, "assistant", reply, now);
      assert sessions.sessions == stored[id := s2] && sessions.leads == leads;
      ghost var existing := if id in leads then Some(leads[id]) else None;
      ghost var t := ScoreTurn(s2, |s2.messages|, scoring, decodeScoring, existing, smooth, message, now);
      assert s1.sessionId == id;
      ScoreTurnReadsScalars(session, s2, |s2.messages|, scoring, decodeScoring, existing, smooth, message, now);
      var leadScore, category := ScoreConversation(session, |sessions.GetMessages(id)|, message, now,
                                                   scoring, decodeScoring, smooth);
      assert leadScore == t.score && category == t.category;
      ghost var before := sessions.sessions;
      assert id in before && before[id] == s2;
      sessions.UpdateScore(id, leadScore, category, now);
      MapOverride(stored, id, s2, s2.(leadScore := leadScore, category := category, updatedAt := now));
      r := Replied(id, reply, leadScore, category);
    }

    static lemma TurnWhenAnswered(
      stored: map<String, Sessions.Session>, leads: map<String, Sessions.Lead>, id: String, s1: Sessions.Session,
      message: String, now: int, agents: Agents, decodeDecision: String -> Decoded<Orchestrator.Decision>,
      ambiguous: String, decodeScoring: String -> Decoded<Scoring.ScoringResponse>, smooth: (int, int) -> int)
      requires agents.orchestrator.Answered?
      ensures
        var reply := SelectReply(Orchestrator.ParseDecision(agents.orchestrator.text, decodeDecision, ambiguous),
                                 agents.faq, agents.auction);
        var s2 := Sessions.WithMessage(s1, Sessions.Message("assistant", reply, now), now);
        var existing := if id in leads then Some(leads[id]) else None;
        var t := ScoreTurn(s2, |s2.messages|, agents.scoring, decodeScoring, existing, smooth, message, now);
        Turn(stored, leads, id, s1, message, now, agents, decodeDecision, ambiguous, decodeScoring, smooth) ==
        (Replied(id, reply, t.score, t.category), stored[id := s2.(leadScore := t.score, category := t.category, updatedAt := now)],
         if t.lead.Some? then leads[id := Sessions.StoredLead(t.lead.value, id in leads, now)] else leads)
    {
    }

    static lemma MapOverride(m: map<String, Sessions.Session>, k: String, a: Sessions.Session, b: Sessions.Session)
      ensures m[k := a][k := b] == m[k := b]
    {
    }

    /** Only the conversation's id, channel, creation time, score and
        category enter the scoring of a turn. */
    static lemma ScoreTurnReadsScalars(
      a: Sessions.Session, b: Sessions.Session, count: int, scoring: ModelCall,
      decode: String -> Decoded<Scoring.ScoringResponse>, existing: Option<Sessions.Lead>, smooth: (int, int) -> int,
      message: String, now: int)
      requires a.sessionId == b.sessionId && a.channel == b.channel && a.createdAt == b.createdAt
      requires a.leadScore == b.leadScore && a.category == b.category
      ensures ScoreTurn(a, count, scoring, decode, existing, smooth, message, now) ==
              ScoreTurn(b, count, scoring, decode, existing, smooth, message, now)
    {
    }

    /** The scoring phase of `SendMessage`, for the conversation `session`
        as it was handed back and its message count after the turn. */
    method ScoreConversation(
      session: Sessions.Session, count: int, message: String, now: int, scoring: ModelCall,
      decode: String -> Decoded<Scoring.ScoringResponse>, smooth: (int, int) -> int)
      returns (leadScore: int, category: String)
      requires sessions.Valid()
      modifies sessions
      ensures sessions.Valid() && sessions.sessions == old(sessions.sessions)
      ensures
        var t := ScoreTurn(session, count, scoring, decode,
                           if session.sessionId in old(sessions.leads) then Some(old(sessions.leads)[session.sessionId]) else None,
                           smooth, message, now);
        leadScore == t.score && category == t.category &&
        sessions.leads == (if t.lead.Some? then old(sessions.leads)[session.sessionId := Sessions.StoredLead(t.lead.value, session.sessionId in old(sessions.leads), now)]
                           else old(sessions.leads))
    {
      if count >= ScoringThreshold {
        if scoring.CallFailed? {
          leadScore := 0;
          category := "cold";
        } else {
          var data := Scoring.ParseScoring(scoring.text, decode);
          var existing := sessions.GetLead(session.sessionId);
          if existing.Some? && existing.value.score > 0 {
            leadScore := smooth(existing.value.score, data.totalScore);
          } else {
            leadScore := data.totalScore;
          }
          category := ControllerCategory(leadScore);
          sessions.CreateOrUpdateLead(
            Sessions.Lead(session.sessionId, session.channel, leadScore, category, "", "", "", [], message,
                          session.createdAt, now, map[]), now);
        }
      } else {
        leadScore := session.leadScore;
        category := session.category;
        if category == "" {
          category := "cold";
        }
      }
    }

    /** `GetScore`: 400 for a missing or invalid session id, 404 for an
        unknown conversation, 500 when the model call fails; otherwise the
        fresh score, its category and its reasons. Nothing is stored. */
    method GetScore(
      decoded: Decoded<String>, requiredError: String, scoring: ModelCall,
      decode: String -> Decoded<Scoring.ScoringResponse>)
      returns (r: ScoreResult)
      ensures decoded.DecodeError? ==> r == ScoreRefused(BadRequest, InvalidData + decoded.error)
      ensures decoded == Decoded("") ==> r == ScoreRefused(BadRequest, InvalidData + requiredError)
      ensures decoded.Decoded? && decoded.value != "" && Validation.ValidateSessionId(decoded.value).Some? ==>
        r == ScoreRefused(BadRequest, Validation.ValidateSessionId(decoded.value).value.message)
      ensures r.ScoreRefused? && r.status == NotFound <==>
        decoded.Decoded? && decoded.value != "" && Validation.ValidateSessionId(decoded.value).None? &&
        decoded.value !in sessions.sessions
      ensures r.ScoreRefused? && r.status == InternalError ==>
        scoring.CallFailed? && r.error == ScoreError + scoring.error
      ensures r.ScoreReport? <==>
        decoded.Decoded? && decoded.value != "" && decoded.value in sessions.sessions && scoring.Answered? &&
        Validation.ValidateSessionId(decoded.value).None?
      ensures r.ScoreReport? ==>
        var data := Scoring.ScoringOf(scoring.text, decode);
        r.score == data.totalScore && r.category == data.category && r.reasons == ScoreReasons(data)
    {
      if decoded.DecodeError? {
        return ScoreRefused(BadRequest, InvalidData + decoded.error);
      }
      var sessionId := decoded.value;
      if sessionId == "" {
        return ScoreRefused(BadRequest, InvalidData + requiredError);
      }
      var idError := Validation.ValidateSessionId(sessionId);
      if idError.Some? {
        return ScoreRefused(BadRequest, idError.value.message);
      }
      var session := sessions.GetSession(sessionId);
      if session.None? {
        return ScoreRefused(NotFound, SessionNotFound);
      }
      if scoring.CallFailed? {
        return ScoreRefused(InternalError, ScoreError + scoring.error);
      }
      var data := Scoring.ParseScoring(scoring.text, decode);
      var reasons := BuildReasons(data);
      return ScoreReport(data.totalScore, data.category, reasons);
    }
  }

  /** The conversation `GetOrCreateSession` hands back for the key. */
  function Opened(stored: map<String, Sessions.Session>, id: String, channel: String, now: int): (s: Sessions.Session)
    ensures id in stored ==> s == stored[id]
    ensures id !in stored ==> s == Sessions.NewSession(id, channel, now)
  {
    if id in stored then stored[id] else Sessions.NewSession(id, channel, now)
  }

  /** The answer and the new maps of an admitted turn, from the maps before
      it and the conversation with the user's message `s1` stored under
      `id`. */
  function Turn(
    stored: map<String, Sessions.Session>, leads: map<String, Sessions.Lead>, id: String, s1: Sessions.Session,
    message: String, now: int, agents: Agents, decodeDecision: String -> Decoded<Orchestrator.Decision>,
    ambiguous: String, decodeScoring: String -> Decoded<Scoring.ScoringResponse>, smooth: (int, int) -> int)
    : (ChatResult, map<String, Sessions.Session>, map<String, Sessions.Lead>)
  {
    match agents.orchestrator
    case CallFailed(e) => (Refused(InternalError, ProcessingError + e), stored[id := s1], leads)
    case Answered(text) =>
      var reply := SelectReply(Orchestrator.ParseDecision(text, decodeDecision, ambiguous), agents.faq, agents.auction);
      var s2 := Sessions.WithMessage(s1, Sessions.Message("assistant", reply, now), now);
      var t := ScoreTurn(s2, |s2.messages|, agents.scoring, decodeScoring, if id in leads then Some(leads[id]) else None,
                         smooth, message, now);
      var newLeads := if t.lead.Some? then leads[id := Sessions.StoredLead(t.lead.value, id in leads, now)] else leads;
      (Replied(id, reply, t.score, t.category), stored[id := s2.(leadScore := t.score, category := t.category, updatedAt := now)],
       newLeads)
  }

  /** A failed orchestrator call leaves the user's message stored and answers
      500. Otherwise the answer carries the selected reply and the turn's
      score and category, the conversation gains the reply and takes that
      score and category, no other conversation changes, and the leads change
      only when the conversation has reached six messages. */
  lemma TurnOutcome(
    stored: map<String, Sessions.Session>, leads: map<String, Sessions.Lead>, id: String, s1: Sessions.Session,
    message: String, now: int, agents: Agents, decodeDecision: String -> Decoded<Orchestrator.Decision>,
    ambiguous: String, decodeScoring: String -> Decoded<Scoring.ScoringResponse>, smooth: (int, int) -> int)
    ensures var out := Turn(stored, leads, id, s1, message, now, agents, decodeDecision, ambiguous, decodeScoring, smooth);
      (agents.orchestrator.CallFailed? ==>
        out == (Refused(InternalError, ProcessingError + agents.orchestrator.error), stored[id := s1], leads)) &&
      (agents.orchestrator.Answered? ==>
        var reply := SelectReply(Orchestrator.ParseDecision(agents.orchestrator.text, decodeDecision, ambiguous),
                                 agents.faq, agents.auction);
        id in out.1 && out.1 == stored[id := out.1[id]] &&
        out.0 == Replied(id, reply, out.1[id].leadScore, out.1[id].category) &&
        out.1[id].messages == s1.messages + [Sessions.Message("assistant", reply, now)] &&
        out.1[id].category != "" &&
        (out.2 != leads ==> |s1.messages| + 1 >= ScoringThreshold))
  {
    if agents.orchestrator.Answered? {
      var reply := SelectReply(Orchestrator.ParseDecision(agents.orchestrator.text, decodeDecision, ambiguous),
                               agents.faq, agents.auction);
      var s2 := Sessions.WithMessage(s1, Sessions.Message("assistant", reply, now), now);
      var existing := if id in leads then Some(leads[id]) else None;
      TurnCategoryNonEmpty(s2, |s2.messages|, agents.scoring, decodeScoring, existing, smooth, message, now);
    }
  }
}
