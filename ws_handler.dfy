/** The `/wh` endpoint of the ingestion server (bot/cmd/whserver/main.go):
    the admission checks in their order, the message-id deduper with its
    sweep, the mark-read call made for every received message, and the
    dispatch of an admitted envelope to the router. JSON decoding, the HMAC,
    RFC 3339 parsing and the clock are inputs; the filter chain's verdict is
    the `passes` parameter. */
module WsHandler {
  import opened Text
  import EngineSend
  import WsSecurity
  import WsRouter
  import WsValues

  /** The server settings the endpoint reads. */
  datatype Config = Config(
    secret: String, requireSig: bool, bodyLimit: int, tsSkew: int, enableTimestamp: bool,
    allowNoSecretDev: bool, markReadUrl: String)

  /** The start-up guard: a required signature without a secret stops the
      server unless the development override is set. */
  predicate StartsUp(cfg: Config) {
    !(cfg.requireSig && cfg.secret == "" && !cfg.allowNoSecretDev)
  }

  /** `readError` stands for a failing connection; a body longer than the
      limit fails the read as well. */
  datatype Request = Request(
    httpMethod: String, body: seq<byte>, readError: bool, timestamp: String, signature: String)

  datatype Response = Response(status: int, text: String)

  datatype Admission = Rejected(response: Response) | Admitted(env: WsRouter.Envelope)

  type Decoder = seq<byte> -> Option<WsRouter.Envelope>

  const MethodNotAllowed: Response := Response(405, "method not allowed\n")
  const BodyReadFailed: Response := Response(400, "bad request: body read\n")
  const BadTimestamp: Response := Response(401, "invalid timestamp\n")
  const BadSignature: Response := Response(401, "invalid signature\n")
  const BadJson: Response := Response(400, "invalid json\n")
  const Duplicate: Response := Response(200, "{\"ok\":true,\"dup\":true}")
  const Accepted: Response := Response(200, "{\"ok\":true}")

  /** `http.MaxBytesReader`: a negative limit reads as zero. */
  predicate BodyReadFails(req: Request, limit: int) {
    req.readError || |req.body| > (if limit < 0 then 0 else limit)
  }

  predicate TimestampOk(req: Request, cfg: Config, now: int, rfc3339: WsSecurity.Rfc3339) {
    !cfg.enableTimestamp || WsSecurity.VerifyTimestamp(req.timestamp, cfg.tsSkew, now, rfc3339).None?
  }

  predicate SignatureOk(req: Request, cfg: Config, mac: EngineSend.Mac) {
    !cfg.requireSig || WsSecurity.VerifySignature(cfg.secret, req.body, req.signature, mac)
  }

  /** The checks of the `/wh` handler up to decoding, in source order. */
  function Admit(req: Request, cfg: Config, now: int, mac: EngineSend.Mac,
                 rfc3339: WsSecurity.Rfc3339, decode: Decoder): (a: Admission)
    ensures req.httpMethod != "POST" ==> a == Rejected(MethodNotAllowed)
    ensures req.httpMethod == "POST" && BodyReadFails(req, cfg.bodyLimit) ==> a == Rejected(BodyReadFailed)
    // a bad timestamp is reported even when the signature is bad too
    ensures req.httpMethod == "POST" && !BodyReadFails(req, cfg.bodyLimit) && !TimestampOk(req, cfg, now, rfc3339) ==>
      a == Rejected(BadTimestamp)
    ensures a == Rejected(BadSignature) <==>
      req.httpMethod == "POST" && !BodyReadFails(req, cfg.bodyLimit) && TimestampOk(req, cfg, now, rfc3339) &&
      !SignatureOk(req, cfg, mac)
    ensures a.Admitted? <==>
      req.httpMethod == "POST" && !BodyReadFails(req, cfg.bodyLimit) && TimestampOk(req, cfg, now, rfc3339) &&
      SignatureOk(req, cfg, mac) && decode(req.body).Some?
    ensures a.Admitted? ==> a.env == decode(req.body).value
  {
    if req.httpMethod != "POST" then Rejected(MethodNotAllowed)
    else if BodyReadFails(req, cfg.bodyLimit) then Rejected(BodyReadFailed)
    else if !TimestampOk(req, cfg, now, rfc3339) then Rejected(BadTimestamp)
    else if !SignatureOk(req, cfg, mac) then Rejected(BadSignature)
    else match decode(req.body)
      case None => Rejected(BadJson)
      case Some(env) => Admitted(env)
  }

  /** With signatures required and a secret set, exactly the bodies signed
      by the event bridge's signer get past the signature check. */
  lemma OnlySignedBodiesAdmitted(req: Request, cfg: Config, now: int, mac: EngineSend.Mac,
                                 rfc3339: WsSecurity.Rfc3339, decode: Decoder)
    requires cfg.requireSig && cfg.secret != ""
    ensures Admit(req, cfg, now, mac, rfc3339, decode).Admitted? ==>
      TrimSpace(req.signature) == EngineSend.SignBody(cfg.secret, req.body, mac)
    ensures req.httpMethod == "POST" && !BodyReadFails(req, cfg.bodyLimit) && TimestampOk(req, cfg, now, rfc3339) &&
            TrimSpace(req.signature) == EngineSend.SignBody(cfg.secret, req.body, mac) && decode(req.body).Some? ==>
      Admit(req, cfg, now, mac, rfc3339, decode).Admitted?
  {
    WsSecurity.SignatureRoundTrip(cfg.secret, req.body, req.signature, mac);
  }

  /** A server that started up never admits an unsigned body when
      signatures are required: the secret is set unless the development
      override was chosen. */
  lemma StartupGuard(cfg: Config)
    requires StartsUp(cfg) && cfg.requireSig && !cfg.allowNoSecretDev
    ensures cfg.secret != ""
  {
  }

  // ----- Deduper -----

  /** The entries a sweep at `cut` keeps: those not before the cut. */
  function Swept(m: map<String, int>, cut: int): (r: map<String, int>)
    ensures forall k :: k in r <==> k in m && m[k] >= cut
    ensures forall k :: k in r ==> r[k] == m[k]
  {
    map k | k in m && m[k] >= cut :: m[k]
  }

  /** The in-memory deduper of message ids. */
  class Deduper {
    var seen: map<String, int>
    const window: int

    constructor(window: int)
      ensures seen == map[] && this.window == window
    {
      seen := map[];
      this.window := window;
    }

    /** `Seen`: the empty id is never a duplicate and never recorded; an id
        recorded at most `window` ago is a duplicate and keeps its time;
        any other id is recorded at `now`. */
    method Seen(id: String, now: int) returns (dup: bool)
      modifies this
      ensures id == "" ==> !dup && seen == old(seen)
      ensures id != "" ==> (dup <==> id in old(seen) && WsSecurity.Sub(now, old(seen)[id]) <= window)
      ensures dup ==> seen == old(seen)
      ensures id != "" && !dup ==> seen == old(seen)[id := now]
    {
      if id == "" {
        return false;
      }
      if id in seen && WsSecurity.Sub(now, seen[id]) <= window {
        return true;
      }
      seen := seen[id := now];
      return false;
    }

    /** One tick of `gc`: every entry recorded before `now - window` is
        deleted, and nothing else. */
    method Gc(now: int)
      modifies this
      ensures seen == Swept(old(seen), now - window)
    {
      var cut := now - window;
      var pending := seen.Keys;
      ghost var start := seen;
      while pending != {}
        invariant pending <= start.Keys
        invariant forall k :: k in seen <==> (k in start && (k in pending || start[k] >= cut))
        invariant forall k :: k in seen ==> seen[k] == start[k]
        decreases |pending|
      {
        var k :| k in pending;
        if seen[k] < cut {
          seen := seen - {k};
        }
        pending := pending - {k};
      }
    }
  }

  /** The sweep and the duplicate test agree: within the `time.Duration`
      range, an entry survives a sweep at `now` exactly when `Seen` at `now`
      would still call its id a duplicate. */
  lemma SweepKeepsLiveEntries(m: map<String, int>, id: String, now: int, window: int)
    requires id in m
    requires WsSecurity.MinDuration <= now - m[id] <= WsSecurity.MaxDuration
    ensures id in Swept(m, now - window) <==> WsSecurity.Sub(now, m[id]) <= window
  {
  }

  // ----- Mark-read -----

  /** `makeMarkReadFn`: no function at all for a blank URL. */
  datatype MarkReadFn = NilFn | PostFn(url: String)

  function MakeMarkReadFn(url: String): (f: MarkReadFn)
    ensures f.NilFn? <==> TrimSpace(url) == ""
  {
    if TrimSpace(url) == "" then NilFn else PostFn(url)
  }

  datatype MarkReadPayload = MarkReadPayload(
    recipient: String, messageIds: seq<String>, receiptType: String, sender: Option<String>)

  /** The request the mark-read function posts; nothing for an empty chat
      or an empty id list, and the sender only when it is not blank. */
  function MarkReadCall(chat: String, sender: String, ids: seq<String>): (p: Option<MarkReadPayload>)
    ensures p.None? <==> chat == "" || |ids| == 0
    ensures p.Some? ==> p.value.recipient == chat && p.value.messageIds == ids && p.value.receiptType == "read"
    ensures p.Some? ==> (p.value.sender.Some? <==> TrimSpace(sender) != "")
  {
    if chat == "" || |ids| == 0 then None
    else Some(MarkReadPayload(chat, ids, "read", if TrimSpace(sender) != "" then Some(sender) else None))
  }

  /** The mark-read step of the asynchronous part. */
  datatype MarkReadStep = NotAsked | NilCall | Called(request: Option<MarkReadPayload>)

  /** A received message with an id is marked read; in a group the sender
      goes along. */
  predicate WantsMarkRead(e: WsRouter.Envelope) {
    e.eventType == "message" && !EqualFold(e.direction, "out") && TrimSpace(e.messageId) != ""
  }

  function MarkReadArgs(e: WsRouter.Envelope): (String, String, seq<String>) {
    (e.chatJid, if Contains(e.chatJid, "@g.us") then e.senderJid else "", [e.messageId])
  }

  /** As written, the function is called even when it was never made: a
      blank mark-read URL turns every received message into a call of a nil
      function, which panics in the goroutine and stops the server. */
  function MarkReadAsWritten(f: MarkReadFn, e: WsRouter.Envelope): MarkReadStep {
    if !WantsMarkRead(e) then NotAsked
    else if f.NilFn? then NilCall
    else
      var (chat, sender, ids) := MarkReadArgs(e);
      Called(MarkReadCall(chat, sender, ids))
  }

  lemma NilMarkReadPanics()
    ensures MarkReadAsWritten(MakeMarkReadFn(""),
      WsRouter.Envelope("message", "in", "34600000000@s.whatsapp.net", "34600000000@s.whatsapp.net",
                        "", "m1", [], "", "hola", None, map[], "")) == NilCall
  {
    assert TrimSpace("m1") == "m1";
    assert ToLower("in") != ToLower("out") by {
      assert ToLower("in")[0] == 'i';
    }
  }

  /** The evidently intended step: without a mark-read function nothing is
      asked. */
  function MarkRead(f: MarkReadFn, e: WsRouter.Envelope): (s: MarkReadStep)
    ensures s != NilCall
    ensures s.NotAsked? <==> !WantsMarkRead(e) || f.NilFn?
    ensures s.Called? ==> s.request == MarkReadCall(e.chatJid, MarkReadArgs(e).1, [e.messageId])
  {
    if !WantsMarkRead(e) || f.NilFn? then NotAsked
    else
      var (chat, sender, ids) := MarkReadArgs(e);
      Called(MarkReadCall(chat, sender, ids))
  }

  /** Both agree whenever a mark-read URL is configured. */
  lemma MarkReadAgreesWhenConfigured(f: MarkReadFn, e: WsRouter.Envelope)
    requires f.PostFn?
    ensures MarkReadAsWritten(f, e) == MarkRead(f, e)
  {
  }

  /** A called mark-read sends a request exactly when the chat is known,
      for the one message id, and carries the sender only in a group. */
  lemma MarkReadSenderOnlyInGroups(f: MarkReadFn, e: WsRouter.Envelope)
    requires MarkRead(f, e).Called?
    ensures MarkRead(f, e).request.Some? <==> e.chatJid != ""
    ensures MarkRead(f, e).request.Some? ==>
      MarkRead(f, e).request.value.messageIds == [e.messageId] &&
      (MarkRead(f, e).request.value.sender.Some? ==>
         Contains(e.chatJid, "@g.us") && MarkRead(f, e).request.value.sender.value == e.senderJid)
  {
    var (chat, sender, ids) := MarkReadArgs(e);
    if !Contains(e.chatJid, "@g.us") {
      assert sender == "";
      assert TrimSpace(sender) == "" by { TrimSpaceEmpty(sender); }
    }
  }

  // ----- The endpoint -----

  class Server {
    const cfg: Config
    const markRead: MarkReadFn
    const ded: Deduper
    const router: WsRouter.SimpleRouter

    constructor(cfg: Config, ded: Deduper, router: WsRouter.SimpleRouter)
      requires StartsUp(cfg)
      ensures this.cfg == cfg && this.ded == ded && this.router == router
      ensures markRead == MakeMarkReadFn(cfg.markReadUrl)
    {
      this.cfg := cfg;
      this.markRead := MakeMarkReadFn(cfg.markReadUrl);
      this.ded := ded;
      this.router := router;
    }

    /** The synchronous part of `/wh`: the admission checks, then the
        deduplication of `message` events only. The envelope handed to the
        asynchronous part is returned as `work`. */
    method Handle(req: Request, now: int, mac: EngineSend.Mac, rfc3339: WsSecurity.Rfc3339, decode: Decoder)
      returns (resp: Response, work: Option<WsRouter.Envelope>)
      modifies ded
      ensures var a := Admit(req, cfg, now, mac, rfc3339, decode);
        (a.Rejected? ==> resp == a.response && work.None? && ded.seen == old(ded.seen)) &&
        (a.Admitted? && a.env.eventType != "message" ==>
          resp == Accepted && work == Some(a.env) && ded.seen == old(ded.seen)) &&
        (a.Admitted? && a.env.eventType == "message" ==>
          var id := a.env.messageId;
          var dup := id != "" && id in old(ded.seen) && WsSecurity.Sub(now, old(ded.seen)[id]) <= ded.window;
          (dup ==> resp == Duplicate && work.None? && ded.seen == old(ded.seen)) &&
          (!dup ==> resp == Accepted && work == Some(a.env) &&
                    ded.seen == if id == "" then old(ded.seen) else old(ded.seen)[id := now]))
    {
      var a := Admit(req, cfg, now, mac, rfc3339, decode);
      if a.Rejected? {
        return a.response, None;
      }
      if a.env.eventType == "message" {
        var dup := ded.Seen(a.env.messageId, now);
        if dup {
          return Duplicate, None;
        }
      }
      return Accepted, Some(a.env);
    }

    /** The asynchronous part: the mark-read step, then the dispatch by
        event type (`receipt` events are only logged). */
    method Process(e: WsRouter.Envelope, passes: bool, now: int, dates: WsRouter.Dates, rfc3339: WsRouter.Rfc3339)
      returns (step: MarkReadStep)
      modifies router`profiles, router`disk, router`aggLog, router`lastChatBySender,
               router`lastActiveChat, router`lastByChat, router`lastTypingAt
      ensures step == MarkRead(markRead, e)
      ensures e.eventType == "message" ==>
        router.profiles == WsRouter.MessageProfiles(old(router.profiles), old(router.disk), router.outbox, e, now, dates, rfc3339) &&
        router.disk == WsRouter.MessageDisk(old(router.profiles), old(router.disk), router.outbox, e, now, dates, rfc3339) &&
        router.lastTypingAt == old(router.lastTypingAt)
      ensures e.eventType == "message" ==>
        var fwd := !EqualFold(e.direction, "out") && passes;
        router.aggLog == old(router.aggLog) + (if fwd && router.hasAggregator then [WsRouter.Add(e.chatJid)] else []) &&
        router.lastChatBySender == (if fwd then WsRouter.SenderChats(old(router.lastChatBySender), e)
                                    else old(router.lastChatBySender)) &&
        router.lastActiveChat == (if fwd then WsRouter.ActiveChat(old(router.lastActiveChat), e)
                                  else old(router.lastActiveChat)) &&
        router.lastByChat == (if fwd then WsRouter.LastSeen(old(router.lastByChat), e, now, rfc3339)
                              else old(router.lastByChat))
      ensures e.eventType != "message" ==>
        router.profiles == old(router.profiles) && router.disk == old(router.disk) &&
        router.lastByChat == old(router.lastByChat) && router.lastActiveChat == old(router.lastActiveChat) &&
        router.lastChatBySender == old(router.lastChatBySender)
      ensures e.eventType == "receipt" ==>
        router.lastTypingAt == old(router.lastTypingAt) && router.aggLog == old(router.aggLog)
      ensures e.eventType != "message" && e.eventType != "receipt" ==>
        var c := WsRouter.TypingChat(e, old(router.lastChatBySender), old(router.lastActiveChat));
        var fire := WsValues.IsTypingEvent(e.eventType, e.receiptType, e.extra) && router.hasAggregator &&
                    WsRouter.TypingFires(c, old(router.lastTypingAt), old(router.lastByChat), now);
        router.lastTypingAt == (if fire then old(router.lastTypingAt)[c := now] else old(router.lastTypingAt)) &&
        router.aggLog == old(router.aggLog) + (if fire then [WsRouter.Touch(c)] else [])
    {
      step := MarkRead(markRead, e);
      if e.eventType == "message" {
        router.OnMessage(e, passes, now, dates, rfc3339);
      } else if e.eventType == "receipt" {
      } else {
        router.OnAny(e, now);
      }
    }
  }
}
