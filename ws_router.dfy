/** The per-chat state of the ingestion server's `SimpleRouter`
    (bot/cmd/whserver/main.go): contact profiles (in memory and on disk),
    their media history and metrics, the last message of every chat, the
    chat each sender last wrote in, and the typing debounce. The message
    aggregator is outside this model: its `Add` and `Touch` calls are
    recorded in a ghost log. The disk is a map from file path to the profile
    stored there; the clock (`now`, in nanoseconds, and `dates`, the day
    numbers of now and of 24 hours earlier) and RFC 3339 parsing are inputs. */
module WsRouter {
  import opened Text
  import WsValues
  import WsSecurity

  const Second: int := 1_000_000_000
  const Millisecond: int := 1_000_000
  /** Go's zero `time.Time` (January 1 of year 1) in Unix nanoseconds. */
  const ZeroTime: int := -62135596800 * Second
  const TypingDebounce: int := 700 * Millisecond
  const MediaPerDirection: int := 200

  /** The wire envelope posted by the event bridge. `media` is `None` when
      the envelope carries no media object. */
  datatype Envelope = Envelope(
    eventType: String, direction: String, chatJid: String, senderJid: String,
    chatName: String, messageId: String, messageIds: seq<String>, receiptType: String,
    text: String, media: Option<map<String, WsValues.Value>>, extra: map<String, WsValues.Value>,
    at: String)

  datatype MediaEntry = MediaEntry(
    direction: String, chatJid: String, senderJid: String, messageId: String,
    kind: String, mimetype: String, title: String, url: String, caption: String, at: int,
    directPath: String, mediaKeyB64: String, fileSha256B64: String, fileEncSha256B64: String,
    fileLength: WsValues.Uint64, seconds: nat)

  /** `streakLastDay` is `None` for the empty day string of a new profile. */
  datatype Metrics = Metrics(
    msgIn: int, msgOut: int, lastMsgAt: int, lastMsgId: String,
    streakDays: int, streakLastDay: Option<int>)

  datatype Profile = Profile(
    senderJid: String, name: String, lang: String, tier: String, tags: map<String, String>,
    firstSeen: int, lastConn: int, lastChat: String, lastText: String,
    mediaIn: seq<MediaEntry>, mediaOut: seq<MediaEntry>, metrics: Metrics)

  /** The envelope handed to the reply rules. */
  datatype RulesEnvelope = RulesEnvelope(
    eventType: String, chatJid: String, senderJid: String, chatName: String,
    messageId: String, text: String, at: int)

  datatype AggCall = Add(chat: String) | Touch(chat: String)

  type Rfc3339 = String -> Option<int>

  /** A profile created for a key seen for the first time. */
  function NewProfile(key: String, now: int): (p: Profile)
    ensures p.senderJid == key && p.lang == "es" && p.tier == "free" && p.tags == map[]
    ensures p.firstSeen == now && p.lastConn == now
    ensures p.mediaIn == [] && p.mediaOut == [] && p.metrics.msgIn == 0 && p.metrics.msgOut == 0
  {
    Profile(key, "", "es", "free", map[], now, now, "", "", [], [],
            Metrics(0, 0, ZeroTime, "", 0, None))
  }

  /** `profilePathFor` */
  function ProfilePath(outbox: String, chat: String): String {
    outbox + "/profiles/" + WsValues.SanitizePathPart(chat) + ".json"
  }

  /** `ndjsonContactPath` */
  function ContactPath(outbox: String, chat: String): String {
    outbox + "/contacts/" + WsValues.SanitizePathPart(chat) + ".ndjson"
  }

  /** `ndjsonGroupPath` */
  function GroupPath(outbox: String, chat: String): String {
    outbox + "/groups/" + WsValues.SanitizePathPart(chat) + ".ndjson"
  }

  /** The profile `getOrCreateProfileByKey` returns for a non-blank key: the
      one in memory, else the one on disk, else a new one. */
  function Resolve(profiles: map<String, Profile>, disk: map<String, Profile>, outbox: String,
                   key: String, now: int): Profile
  {
    var k := TrimSpace(key);
    if k in profiles then profiles[k]
    else if ProfilePath(outbox, k) in disk then disk[ProfilePath(outbox, k)]
    else NewProfile(k, now)
  }

  /** The calendar dates a streak update reads: the local date of `now`
      and the local date of `now` minus 24 hours. Around a daylight-saving
      change the second is not always the day before the first. */
  datatype Dates = Dates(today: int, yesterday: int)

  /** Day streak: unchanged on the same day, one longer when the last day
      is the date of 24 hours ago, otherwise restarted at one; the last day
      becomes today. */
  function NextStreak(days: int, last: Option<int>, d: Dates): (r: (int, Option<int>))
    ensures r.1 == Some(d.today)
    ensures last == Some(d.today) ==> r.0 == days
    ensures last != Some(d.today) && last == Some(d.yesterday) ==> r.0 == days + 1
    ensures last != Some(d.today) && last != Some(d.yesterday) ==> r.0 == 1
  {
    if last == Some(d.today) then (days, last)
    else if last == Some(d.yesterday) then (days + 1, Some(d.today))
    else (1, Some(d.today))
  }

  /** The dates of a day whose previous 24 hours end on the calendar day
      before it, as on every day away from a daylight-saving change. */
  function PlainDay(day: int): (d: Dates)
    ensures d.today == day && d.yesterday == day - 1
  {
    Dates(day, day - 1)
  }

  /** The streak after touches on each of the given dates, in order. */
  function StreakAfter(days: int, last: Option<int>, touches: seq<Dates>): (int, Option<int>)
    decreases |touches|
  {
    if |touches| == 0 then (days, last)
    else
      var s := NextStreak(days, last, touches[0]);
      StreakAfter(s.0, s.1, touches[1..])
  }

  /** Touching on `k` consecutive plain days, starting on a day that neither
      repeats nor continues the previous streak, gives a streak of `k`. */
  lemma {:induction false} ConsecutiveDaysStreak(days: int, last: Option<int>, first: int, k: nat)
    requires k >= 1
    requires last != Some(first) && last != Some(first - 1)
    ensures StreakAfter(days, last, seq(k, i => PlainDay(first + i))) == (k, Some(first + k - 1))
  {
    var touches := seq(k, i => PlainDay(first + i));
    var s := NextStreak(days, last, PlainDay(first));
    assert s == (1, Some(first));
    ConsecutiveFrom(1, first, seq(k - 1, i => PlainDay(first + 1 + i)));
    assert touches[1..] == seq(k - 1, i => PlainDay(first + 1 + i));
  }

  lemma {:induction false} ConsecutiveFrom(n: int, day: int, rest: seq<Dates>)
    requires forall i :: 0 <= i < |rest| ==> rest[i] == PlainDay(day + 1 + i)
    ensures StreakAfter(n, Some(day), rest) == (n + |rest|, Some(day + |rest|))
    decreases |rest|
  {
    if |rest| > 0 {
      ConsecutiveFrom(n + 1, day + 1, rest[1..]);
    }
  }

  /** Right after a 23-hour day, the 24 hours before `now` reach back two
      calendar days, so a streak last extended on the previous calendar day
      restarts at one. */
  lemma ShortDayRestartsStreak(days: int, day: int)
    ensures NextStreak(days, Some(day - 1), Dates(day, day - 2)) == (1, Some(day))
  {
  }

  /** Several touches on one day count once. */
  lemma SameDayTouchesCountOnce(days: int, last: Option<int>, d: Dates)
    ensures var s := NextStreak(days, last, d); NextStreak(s.0, s.1, d) == s
  {
  }

  const ContactsTag: String := "out.contacts_ndjson"

  function GroupTag(chat: String): String {
    "out.group." + chat
  }

  /** The route tags an inbound message adds: the contact file for a
      non-group chat, a group file entry for a group chat. */
  function InboundTags(tags: map<String, String>, outbox: String, chat: String): (t: map<String, String>)
    ensures TrimSpace(chat) != "" && !HasSuffix(chat, "@g.us") ==>
      ContactsTag in t && t[ContactsTag] == ContactPath(outbox, chat)
    ensures Contains(chat, "@g.us") ==> GroupTag(chat) in t && t[GroupTag(chat)] == GroupPath(outbox, chat)
    ensures forall k :: k in tags && k != ContactsTag && k != GroupTag(chat) ==> k in t && t[k] == tags[k]
    ensures t.Keys <= tags.Keys + {ContactsTag, GroupTag(chat)}
  {
    assert ContactsTag != GroupTag(chat) by {
      assert ContactsTag[4] == 'c' && GroupTag(chat)[4] == 'g';
    }
    var t1 := if TrimSpace(chat) != "" && !HasSuffix(chat, "@g.us")
              then tags[ContactsTag := ContactPath(outbox, chat)] else tags;
    if Contains(chat, "@g.us") then t1[GroupTag(chat) := GroupPath(outbox, chat)] else t1
  }

  /** The profile after `touchProfileFromInbound` updated it. */
  function Touched(p: Profile, e: Envelope, outbox: String, now: int, dates: Dates): (q: Profile)
    ensures q.metrics.msgIn == p.metrics.msgIn + 1 && q.metrics.msgOut == p.metrics.msgOut
    ensures q.metrics.lastMsgId == e.messageId && q.lastText == e.text && q.lastChat == e.chatJid
    ensures q.lastConn == now && q.metrics.lastMsgAt == now
    ensures (q.metrics.streakDays, q.metrics.streakLastDay) ==
            NextStreak(p.metrics.streakDays, p.metrics.streakLastDay, dates)
    ensures q.mediaIn == p.mediaIn && q.mediaOut == p.mediaOut && q.senderJid == p.senderJid
    ensures q.tags == InboundTags(p.tags, outbox, e.chatJid)
  {
    var s := NextStreak(p.metrics.streakDays, p.metrics.streakLastDay, dates);
    p.(lastConn := now, lastChat := e.chatJid, lastText := e.text,
       tags := InboundTags(p.tags, outbox, e.chatJid),
       metrics := p.metrics.(msgIn := p.metrics.msgIn + 1, lastMsgAt := now, lastMsgId := e.messageId,
                             streakDays := s.0, streakLastDay := s.1))
  }

  /** The profile key of a received message: its chat, or without one its
      sender. */
  function InboundKey(e: Envelope): String {
    if TrimSpace(e.chatJid) != "" then TrimSpace(e.chatJid) else TrimSpace(e.senderJid)
  }

  /** The envelope handed to the rules; the time is the parsed `at` field
      or, when that is not RFC 3339, the current time. */
  function RulesOf(e: Envelope, now: int, rfc3339: Rfc3339): RulesEnvelope {
    RulesEnvelope(e.eventType, e.chatJid, e.senderJid, e.chatName, e.messageId, e.text,
                  match rfc3339(TrimSpace(e.at)) case Some(t) => t case None => now)
  }

  /** The media entry `appendMedia` builds from an envelope. */
  function EntryOf(chatKey: String, e: Envelope, kind: String, now: int, rfc3339: Rfc3339): MediaEntry
    requires e.media.Some?
  {
    var m := e.media.value;
    MediaEntry(
      ToLower(TrimSpace(e.direction)), chatKey, e.senderJid, e.messageId, kind,
      TrimSpace(WsValues.StrFromMap(m, "mimetype")), TrimSpace(WsValues.StrFromMap(m, "title")),
      TrimSpace(WsValues.StrFromMap(m, "url")), TrimSpace(e.text),
      match rfc3339(TrimSpace(e.at)) case Some(t) => t case None => now,
      TrimSpace(WsValues.StrFromMap(m, "direct_path")), TrimSpace(WsValues.StrFromMap(m, "media_key_b64")),
      TrimSpace(WsValues.StrFromMap(m, "file_sha256_b64")), TrimSpace(WsValues.StrFromMap(m, "file_enc_sha256_b64")),
      WsValues.U64FromMap(m, "file_length"), WsValues.U32FromMap(m, "seconds"))
  }

  /** The media type `appendMedia` files an envelope under; `""` means
      nothing is stored. */
  function MediaKind(e: Envelope): String {
    if e.media.None? then "" else ToLower(TrimSpace(WsValues.StrFromMap(e.media.value, "type")))
  }

  /** The profile after one media entry was filed: appended to the list of
      its direction, which is then cut to its last `maxPerDir` entries. */
  function WithMedia(p: Profile, entry: MediaEntry, maxPerDir: int): (q: Profile)
    ensures entry.direction == "out" ==>
      q.mediaOut == WsValues.KeepLastN(p.mediaOut + [entry], maxPerDir) && q.mediaIn == p.mediaIn
    ensures entry.direction != "out" ==>
      q.mediaIn == WsValues.KeepLastN(p.mediaIn + [entry], maxPerDir) && q.mediaOut == p.mediaOut
    ensures q.metrics == p.metrics && q.tags == p.tags && q.senderJid == p.senderJid
  {
    if entry.direction == "out" then p.(mediaOut := WsValues.KeepLastN(p.mediaOut + [entry], maxPerDir))
    else p.(mediaIn := WsValues.KeepLastN(p.mediaIn + [entry], maxPerDir))
  }

  /** The new entry is always kept, as the last one, and the list never
      exceeds the cap. */
  lemma MediaHistoryCapped(p: Profile, entry: MediaEntry, maxPerDir: int)
    requires maxPerDir > 0
    ensures var q := WithMedia(p, entry, maxPerDir);
      var l := if entry.direction == "out" then q.mediaOut else q.mediaIn;
      |l| <= maxPerDir && |l| > 0 && l[|l| - 1] == entry
  {
    var q := WithMedia(p, entry, maxPerDir);
    var l := if entry.direction == "out" then q.mediaOut else q.mediaIn;
    var full := if entry.direction == "out" then p.mediaOut + [entry] else p.mediaIn + [entry];
    assert l == WsValues.KeepLastN(full, maxPerDir);
    var k :| 0 <= k <= |full| && l == full[k..];
    assert |l| > 0;
    assert l[|l| - 1] == full[|full| - 1];
  }

  /** The profile after `appendMedia` for an envelope whose media type is
      `MediaKind(e)`: unchanged without one, otherwise with the entry filed. */
  function FiledMedia(p: Profile, chatKey: String, e: Envelope, maxPerDir: int, now: int, rfc3339: Rfc3339)
    : (q: Profile)
    ensures MediaKind(e) == "" ==> q == p
    ensures q.metrics == p.metrics && q.tags == p.tags && q.senderJid == p.senderJid
  {
    if MediaKind(e) == "" then p else WithMedia(p, EntryOf(chatKey, e, MediaKind(e), now, rfc3339), maxPerDir)
  }

  /** With media, the new entry is the last one of the list of its
      direction (`in` unless the direction is `out`), which stays within the
      cap. */
  lemma FiledMediaCapped(p: Profile, chatKey: String, e: Envelope, maxPerDir: int, now: int, rfc3339: Rfc3339)
    requires MediaKind(e) != "" && maxPerDir > 0
    ensures var q := FiledMedia(p, chatKey, e, maxPerDir, now, rfc3339);
      var entry := EntryOf(chatKey, e, MediaKind(e), now, rfc3339);
      var l := if entry.direction == "out" then q.mediaOut else q.mediaIn;
      |l| <= maxPerDir && |l| > 0 && l[|l| - 1] == entry
  {
    MediaHistoryCapped(p, EntryOf(chatKey, e, MediaKind(e), now, rfc3339), maxPerDir);
  }

  /** The profile after `incOutboundFor`: one more outgoing message, now. */
  function CountedOut(p: Profile, now: int): (q: Profile)
    ensures q.metrics.msgOut == p.metrics.msgOut + 1 && q.metrics.lastMsgAt == now
    ensures q.metrics.msgIn == p.metrics.msgIn && q.metrics.streakDays == p.metrics.streakDays
    ensures q.mediaIn == p.mediaIn && q.mediaOut == p.mediaOut && q.tags == p.tags && q.lastText == p.lastText
  {
    p.(metrics := p.metrics.(msgOut := p.metrics.msgOut + 1, lastMsgAt := now))
  }

  /** The chat's profile after an own message: its media filed, then one
      more outgoing message counted. */
  function OwnProfile(profiles: map<String, Profile>, disk: map<String, Profile>, outbox: String,
                      e: Envelope, now: int, rfc3339: Rfc3339): Profile
  {
    CountedOut(FiledMedia(Resolve(profiles, disk, outbox, e.chatJid, now), e.chatJid, e, MediaPerDirection, now, rfc3339), now)
  }

  /** The two steps of `onOwnMessage` (media filed, then one more outgoing
      message counted, each saved) compose to `OwnProfiles` and `OwnDisk`. */
  lemma OwnMessageSteps(p0: map<String, Profile>, d0: map<String, Profile>,
                        p1: map<String, Profile>, d1: map<String, Profile>,
                        p2: map<String, Profile>, d2: map<String, Profile>,
                        outbox: String, e: Envelope, now: int, rfc3339: Rfc3339)
    requires TrimSpace(e.chatJid) != ""
    requires MediaKind(e) == "" ==> p1 == p0 && d1 == d0
    requires MediaKind(e) != "" ==>
      var p := WithMedia(Resolve(p0, d0, outbox, e.chatJid, now),
                         EntryOf(e.chatJid, e, MediaKind(e), now, rfc3339), MediaPerDirection);
      p1 == p0[TrimSpace(e.chatJid) := p] && d1 == d0[ProfilePath(outbox, e.chatJid) := p]
    requires var c := Resolve(p1, d1, outbox, e.chatJid, now);
      var p := c.(metrics := c.metrics.(msgOut := c.metrics.msgOut + 1, lastMsgAt := now));
      p2 == p1[TrimSpace(e.chatJid) := p] && d2 == d1[ProfilePath(outbox, e.chatJid) := p]
    ensures p2 == OwnProfiles(p0, d0, outbox, e, now, rfc3339)
    ensures d2 == OwnDisk(p0, d0, outbox, e, now, rfc3339)
  {
    var k := TrimSpace(e.chatJid);
    var filed := FiledMedia(Resolve(p0, d0, outbox, e.chatJid, now), e.chatJid, e, MediaPerDirection, now, rfc3339);
    assert Resolve(p1, d1, outbox, e.chatJid, now) == filed;
    var final := CountedOut(filed, now);
    if MediaKind(e) != "" {
      MapOverwrite(p0, k, filed, final);
      MapOverwrite(d0, ProfilePath(outbox, e.chatJid), filed, final);
    }
  }

  /** An own message counts one more outgoing message, now, and leaves the
      incoming count, the tags and the last text alone. */
  lemma OwnMessageCounted(profiles: map<String, Profile>, disk: map<String, Profile>, outbox: String,
                          e: Envelope, now: int, rfc3339: Rfc3339)
    ensures var p := Resolve(profiles, disk, outbox, e.chatJid, now);
      var q := OwnProfile(profiles, disk, outbox, e, now, rfc3339);
      q.metrics.msgOut == p.metrics.msgOut + 1 && q.metrics.msgIn == p.metrics.msgIn &&
      q.metrics.lastMsgAt == now && q.tags == p.tags && q.lastText == p.lastText
  {
    var p := Resolve(profiles, disk, outbox, e.chatJid, now);
    var f := FiledMedia(p, e.chatJid, e, MediaPerDirection, now, rfc3339);
    assert f.metrics == p.metrics && f.tags == p.tags;
    if MediaKind(e) != "" {
      assert f.lastText == p.lastText;
    }
  }

  /** The profile of a received message after `touchProfileFromInbound`. */
  function TouchedProfile(profiles: map<String, Profile>, disk: map<String, Profile>, outbox: String,
                          e: Envelope, now: int, dates: Dates): Profile
  {
    Touched(Resolve(profiles, disk, outbox, InboundKey(e), now), e, outbox, now, dates)
  }

  /** The profile of a received message after the touch and, for a
      message with a chat, its media. */
  function ReceivedProfile(profiles: map<String, Profile>, disk: map<String, Profile>, outbox: String,
                           e: Envelope, now: int, dates: Dates, rfc3339: Rfc3339): Profile
  {
    var p := TouchedProfile(profiles, disk, outbox, e, now, dates);
    if TrimSpace(e.chatJid) != "" then FiledMedia(p, e.chatJid, e, MediaPerDirection, now, rfc3339) else p
  }

  /** A received message counts one more incoming message, records its id,
      text and chat, adds its route tags and advances the day streak;
      media never changes those. */
  lemma ReceivedMessageCounted(profiles: map<String, Profile>, disk: map<String, Profile>, outbox: String,
                               e: Envelope, now: int, dates: Dates, rfc3339: Rfc3339)
    ensures var p := Resolve(profiles, disk, outbox, InboundKey(e), now);
      var q := ReceivedProfile(profiles, disk, outbox, e, now, dates, rfc3339);
      q.metrics.msgIn == p.metrics.msgIn + 1 && q.metrics.msgOut == p.metrics.msgOut &&
      q.metrics.lastMsgId == e.messageId && q.lastChat == e.chatJid &&
      q.tags == InboundTags(p.tags, outbox, e.chatJid) &&
      (q.metrics.streakDays, q.metrics.streakLastDay) ==
        NextStreak(p.metrics.streakDays, p.metrics.streakLastDay, dates)
  {
    var t := TouchedProfile(profiles, disk, outbox, e, now, dates);
    var f := FiledMedia(t, e.chatJid, e, MediaPerDirection, now, rfc3339);
    assert f.metrics == t.metrics && f.tags == t.tags;
    if MediaKind(e) != "" {
      assert f.lastChat == t.lastChat;
    }
  }

  /** The profiles in memory after a received message: only its profile
      key changes, to `ReceivedProfile`. */
  function ReceivedProfiles(profiles: map<String, Profile>, disk: map<String, Profile>, outbox: String,
                            e: Envelope, now: int, dates: Dates, rfc3339: Rfc3339): map<String, Profile>
  {
    if InboundKey(e) == "" then profiles
    else profiles[InboundKey(e) := ReceivedProfile(profiles, disk, outbox, e, now, dates, rfc3339)]
  }

  /** The profile files after a received message: the touched profile is
      saved under its profile key and, when media follows, the final
      profile under its (untrimmed) chat. */
  function ReceivedDisk(profiles: map<String, Profile>, disk: map<String, Profile>, outbox: String,
                        e: Envelope, now: int, dates: Dates, rfc3339: Rfc3339): map<String, Profile>
  {
    if InboundKey(e) == "" then disk
    else
      var d := disk[ProfilePath(outbox, InboundKey(e)) := TouchedProfile(profiles, disk, outbox, e, now, dates)];
      if TrimSpace(e.chatJid) != "" && MediaKind(e) != ""
      then d[ProfilePath(outbox, e.chatJid) := ReceivedProfile(profiles, disk, outbox, e, now, dates, rfc3339)]
      else d
  }

  /** The profiles in memory after an own message: only its trimmed chat
      changes, to `OwnProfile`, and nothing changes without a chat. */
  function OwnProfiles(profiles: map<String, Profile>, disk: map<String, Profile>, outbox: String,
                       e: Envelope, now: int, rfc3339: Rfc3339): map<String, Profile>
  {
    if TrimSpace(e.chatJid) == "" then profiles
    else profiles[TrimSpace(e.chatJid) := OwnProfile(profiles, disk, outbox, e, now, rfc3339)]
  }

  /** The profile files after an own message: the final profile is saved
      under its (untrimmed) chat. */
  function OwnDisk(profiles: map<String, Profile>, disk: map<String, Profile>, outbox: String,
                   e: Envelope, now: int, rfc3339: Rfc3339): map<String, Profile>
  {
    if TrimSpace(e.chatJid) == "" then disk
    else disk[ProfilePath(outbox, e.chatJid) := OwnProfile(profiles, disk, outbox, e, now, rfc3339)]
  }

  /** The profiles in memory after `OnMessage`. */
  function MessageProfiles(profiles: map<String, Profile>, disk: map<String, Profile>, outbox: String,
                           e: Envelope, now: int, dates: Dates, rfc3339: Rfc3339): map<String, Profile>
  {
    if EqualFold(e.direction, "out") then OwnProfiles(profiles, disk, outbox, e, now, rfc3339)
    else ReceivedProfiles(profiles, disk, outbox, e, now, dates, rfc3339)
  }

  /** The profile files after `OnMessage`. */
  function MessageDisk(profiles: map<String, Profile>, disk: map<String, Profile>, outbox: String,
                       e: Envelope, now: int, dates: Dates, rfc3339: Rfc3339): map<String, Profile>
  {
    if EqualFold(e.direction, "out") then OwnDisk(profiles, disk, outbox, e, now, rfc3339)
    else ReceivedDisk(profiles, disk, outbox, e, now, dates, rfc3339)
  }

  /** `OnMessage` dispatches on the direction: an own message's state is
      `OwnProfiles`/`OwnDisk`, any other message's `ReceivedProfiles`/`ReceivedDisk`. */
  lemma MessageSteps(p0: map<String, Profile>, d0: map<String, Profile>,
                     p1: map<String, Profile>, d1: map<String, Profile>,
                     outbox: String, e: Envelope, now: int, dates: Dates, rfc3339: Rfc3339)
    requires EqualFold(e.direction, "out") ==>
      p1 == OwnProfiles(p0, d0, outbox, e, now, rfc3339) && d1 == OwnDisk(p0, d0, outbox, e, now, rfc3339)
    requires !EqualFold(e.direction, "out") ==>
      p1 == ReceivedProfiles(p0, d0, outbox, e, now, dates, rfc3339) &&
      d1 == ReceivedDisk(p0, d0, outbox, e, now, dates, rfc3339)
    ensures p1 == MessageProfiles(p0, d0, outbox, e, now, dates, rfc3339)
    ensures d1 == MessageDisk(p0, d0, outbox, e, now, dates, rfc3339)
  {
  }

  /** An `OnMessage` call changes at most the message's profile key in
      memory, and keeps every other profile. */
  lemma MessageTouchesOneProfile(profiles: map<String, Profile>, disk: map<String, Profile>, outbox: String,
                                 e: Envelope, now: int, dates: Dates, rfc3339: Rfc3339, other: String)
    requires other != (if EqualFold(e.direction, "out") then TrimSpace(e.chatJid) else InboundKey(e))
    ensures var m := MessageProfiles(profiles, disk, outbox, e, now, dates, rfc3339);
      (other in m <==> other in profiles) && (other in profiles ==> m[other] == profiles[other])
  {
  }

  /** `lastChatBySender` after a passing received message. */
  function SenderChats(m: map<String, String>, e: Envelope): (r: map<String, String>)
    ensures TrimSpace(e.senderJid) != "" && TrimSpace(e.chatJid) != "" ==>
      e.senderJid in r && r[e.senderJid] == e.chatJid
    ensures forall s :: s in m && s != e.senderJid ==> s in r && r[s] == m[s]
  {
    if TrimSpace(e.senderJid) != "" && TrimSpace(e.chatJid) != "" then m[e.senderJid := e.chatJid] else m
  }

  /** `lastActiveChat` after a passing received message. */
  function ActiveChat(last: String, e: Envelope): (r: String)
    ensures TrimSpace(e.chatJid) != "" ==> r == e.chatJid
    ensures TrimSpace(e.chatJid) == "" ==> r == last
  {
    if TrimSpace(e.chatJid) != "" then e.chatJid else last
  }

  /** `lastByChat` after a passing received message: its chat's last
      message, unless a linked-id sender writes outside a group. */
  function LastSeen(m: map<String, RulesEnvelope>, e: Envelope, now: int, rfc3339: Rfc3339)
    : (r: map<String, RulesEnvelope>)
    ensures Contains(e.senderJid, "@lid") && !Contains(e.chatJid, "@g.us") ==> r == m
    ensures !(Contains(e.senderJid, "@lid") && !Contains(e.chatJid, "@g.us")) ==>
      e.chatJid in r && r[e.chatJid].messageId == e.messageId && r[e.chatJid].text == e.text
    ensures forall c :: c in m && c != e.chatJid ==> c in r && r[c] == m[c]
  {
    if Contains(e.senderJid, "@lid") && !Contains(e.chatJid, "@g.us") then m
    else m[e.chatJid := RulesOf(e, now, rfc3339)]
  }

  /** The chat a typing event would touch, from the router's last-seen
      state. */
  function TypingChat(e: Envelope, lastChatBySender: map<String, String>, lastActiveChat: String): String {
    TypingTarget(TrimSpace(e.chatJid),
                 if e.senderJid in lastChatBySender then lastChatBySender[e.senderJid] else "",
                 lastActiveChat)
  }

  /** Whether a typing touch for `chat` goes through the debounce. */
  predicate TypingFires(chat: String, lastTypingAt: map<String, int>, lastByChat: map<String, RulesEnvelope>, now: int) {
    var last := if chat in lastTypingAt then lastTypingAt[chat] else ZeroTime;
    chat != "" && chat in lastByChat && WsSecurity.Sub(now, last) >= TypingDebounce
  }

  /** The chat a typing event is attributed to: the chat its sender last
      wrote in when that differs from the event's own chat, else the event's
      chat, else the last active chat. */
  function TypingTarget(raw: String, mapped: String, lastActive: String): (c: String)
    ensures mapped != "" ==> c == mapped
    ensures mapped == "" && raw != "" ==> c == raw
    ensures mapped == "" && raw == "" ==> c == lastActive
  {
    var chat := if mapped != "" && mapped != raw then mapped else raw;
    if chat == "" then lastActive else chat
  }

  lemma MapOverwrite<K, V>(m: map<K, V>, k: K, a: V, b: V)
    ensures m[k := a][k := b] == m[k := b]
  {
  }

  class SimpleRouter {
    const outbox: String
    const hasAggregator: bool
    var profiles: map<String, Profile>
    var disk: map<String, Profile>
    var lastByChat: map<String, RulesEnvelope>
    var lastActiveChat: String
    var lastChatBySender: map<String, String>
    var lastTypingAt: map<String, int>
    ghost var aggLog: seq<AggCall>

    /** `NewSimpleRouter` with the given outbox directory and profile files. */
    constructor(outbox: String, hasAggregator: bool, disk: map<String, Profile>)
      ensures this.outbox == outbox && this.hasAggregator == hasAggregator && this.disk == disk
      ensures profiles == map[] && lastByChat == map[] && lastChatBySender == map[] && lastTypingAt == map[]
      ensures lastActiveChat == "" && aggLog == []
    {
      this.outbox := outbox;
      this.hasAggregator := hasAggregator;
      this.disk := disk;
      profiles := map[];
      lastByChat := map[];
      lastActiveChat := "";
      lastChatBySender := map[];
      lastTypingAt := map[];
      aggLog := [];
    }

    /** `getOrCreateProfileByKey`: a blank key yields nothing; otherwise the
        trimmed key's profile is taken from memory, else loaded from disk,
        else created, and kept in memory. */
    method GetOrCreateProfileByKey(key: String, now: int) returns (k: Option<String>)
      modifies this`profiles
      ensures TrimSpace(key) == "" ==> k.None? && profiles == old(profiles)
      ensures TrimSpace(key) != "" ==>
        k == Some(TrimSpace(key)) &&
        profiles == old(profiles)[TrimSpace(key) := Resolve(old(profiles), old(disk), outbox, key, now)]
      ensures TrimSpace(key) != "" && TrimSpace(key) in old(profiles) ==> profiles == old(profiles)
    {
      var t := TrimSpace(key);
      if t == "" {
        return None;
      }
      if t in profiles {
        return Some(t);
      }
      var path := ProfilePath(outbox, t);
      if path in disk {
        profiles := profiles[t := disk[path]];
      } else {
        profiles := profiles[t := NewProfile(t, now)];
      }
      return Some(t);
    }

    /** `persistProfileSnapshotByChat`: the profile file named after the
        chat is overwritten, unless the chat is blank. */
    method Persist(p: Profile, chat: String)
      modifies this`disk
      ensures TrimSpace(chat) == "" ==> disk == old(disk)
      ensures TrimSpace(chat) != "" ==> disk == old(disk)[ProfilePath(outbox, chat) := p]
    {
      if TrimSpace(chat) != "" {
        disk := disk[ProfilePath(outbox, chat) := p];
      }
    }

    /** Keeps a profile in memory under the trimmed key and saves it. */
    method Store(key: String, p: Profile)
      requires TrimSpace(key) != ""
      modifies this`profiles, this`disk
      ensures profiles == old(profiles)[TrimSpace(key) := p]
      ensures disk == old(disk)[ProfilePath(outbox, key) := p]
    {
      profiles := profiles[TrimSpace(key) := p];
      Persist(p, key);
    }

    /** `touchProfileFromInbound`: the profile of the chat (or, without a
        chat, of the sender) records the message and is saved. */
    method TouchProfileFromInbound(e: Envelope, now: int, dates: Dates)
      modifies this`profiles, this`disk
      ensures var key := if TrimSpace(e.chatJid) != "" then TrimSpace(e.chatJid) else TrimSpace(e.senderJid);
        (key == "" ==> profiles == old(profiles) && disk == old(disk)) &&
        (key != "" ==>
          var p := Touched(Resolve(old(profiles), old(disk), outbox, key, now), e, outbox, now, dates);
          profiles == old(profiles)[key := p] && disk == old(disk)[ProfilePath(outbox, key) := p])
    {
      var key := TrimSpace(e.chatJid);
      if key == "" {
        key := TrimSpace(e.senderJid);
      }
      TrimSpaceIdempotent(if TrimSpace(e.chatJid) != "" then e.chatJid else e.senderJid);
      ghost var p1 := Resolve(profiles, disk, outbox, key, now);
      var k := GetOrCreateProfileByKey(key, now);
      if k.None? {
        return;
      }
      var p := Touched(profiles[k.value], e, outbox, now, dates);
      Store(key, p);
      MapOverwrite(old(profiles), k.value, p1, p);
    }

    /** `incOutboundFor`: one more outgoing message for the chat's profile.
        A blank but non-empty key would dereference a missing profile, so
        callers pass a chat that is empty or not blank. */
    method IncOutboundFor(chatKey: String, now: int)
      requires chatKey == "" || TrimSpace(chatKey) != ""
      modifies this`profiles, this`disk
      ensures chatKey == "" ==> profiles == old(profiles) && disk == old(disk)
      ensures chatKey != "" ==>
        var k := TrimSpace(chatKey);
        var p0 := Resolve(old(profiles), old(disk), outbox, chatKey, now);
        var p := p0.(metrics := p0.metrics.(msgOut := p0.metrics.msgOut + 1, lastMsgAt := now));
        profiles == old(profiles)[k := p] && disk == old(disk)[ProfilePath(outbox, chatKey) := p]
    {
      if chatKey == "" {
        return;
      }
      ghost var p1 := Resolve(profiles, disk, outbox, chatKey, now);
      var k := GetOrCreateProfileByKey(chatKey, now);
      var p0 := profiles[k.value];
      var p := p0.(metrics := p0.metrics.(msgOut := p0.metrics.msgOut + 1, lastMsgAt := now));
      Store(chatKey, p);
      MapOverwrite(old(profiles), k.value, p1, p);
    }

    /** `appendMedia`: a blank chat, a missing media object or an empty
        media type changes nothing; otherwise exactly one entry is filed in
        the list of its direction and the profile is saved. */
    method AppendMedia(chatKey: String, e: Envelope, maxPerDir: int, now: int, rfc3339: Rfc3339)
      modifies this`profiles, this`disk
      ensures TrimSpace(chatKey) == "" || MediaKind(e) == "" ==> profiles == old(profiles) && disk == old(disk)
      ensures TrimSpace(chatKey) != "" && MediaKind(e) != "" ==>
        var p := WithMedia(Resolve(old(profiles), old(disk), outbox, chatKey, now),
                           EntryOf(chatKey, e, MediaKind(e), now, rfc3339), maxPerDir);
        profiles == old(profiles)[TrimSpace(chatKey) := p] && disk == old(disk)[ProfilePath(outbox, chatKey) := p]
    {
      var kind := MediaKind(e);
      if TrimSpace(chatKey) == "" || kind == "" {
        return;
      }
      ghost var p1 := Resolve(profiles, disk, outbox, chatKey, now);
      var k := GetOrCreateProfileByKey(chatKey, now);
      var p := WithMedia(profiles[k.value], EntryOf(chatKey, e, kind, now, rfc3339), maxPerDir);
      Store(chatKey, p);
      MapOverwrite(old(profiles), k.value, p1, p);
    }

    /** The aggregator, when present, is told about a message of the chat. */
    method NotifyAggregator(chat: String)
      modifies this`aggLog
      ensures aggLog == old(aggLog) + (if hasAggregator then [Add(chat)] else [])
    {
      if hasAggregator {
        aggLog := aggLog + [Add(chat)];
      }
    }

    /** Step 4 of `OnMessage` for a received message that passed the
        filters: the sender's chat and the active chat are remembered, each
        only for non-blank ids. */
    method RememberChat(e: Envelope)
      modifies this`lastChatBySender, this`lastActiveChat
      ensures lastChatBySender == SenderChats(old(lastChatBySender), e)
      ensures lastActiveChat == ActiveChat(old(lastActiveChat), e)
    {
      if TrimSpace(e.senderJid) != "" && TrimSpace(e.chatJid) != "" {
        lastChatBySender := lastChatBySender[e.senderJid := e.chatJid];
      }
      if TrimSpace(e.chatJid) != "" {
        lastActiveChat := e.chatJid;
      }
    }

    /** Steps 5 and 6 of `OnMessage`: the message becomes its chat's last
        one, unless a linked-id sender writes outside a group. */
    method RememberLast(e: Envelope, now: int, rfc3339: Rfc3339)
      modifies this`lastByChat
      ensures lastByChat == LastSeen(old(lastByChat), e, now, rfc3339)
    {
      if !(Contains(e.senderJid, "@lid") && !Contains(e.chatJid, "@g.us")) {
        lastByChat := lastByChat[e.chatJid := RulesOf(e, now, rfc3339)];
      }
    }

    /** Step 1 of `OnMessage`: an own message of a non-blank chat records
        its media and one more outgoing message for the chat. */
    method OnOwnMessage(e: Envelope, now: int, rfc3339: Rfc3339)
      modifies this`profiles, this`disk
      ensures profiles == OwnProfiles(old(profiles), old(disk), outbox, e, now, rfc3339)
      ensures disk == OwnDisk(old(profiles), old(disk), outbox, e, now, rfc3339)
    {
      if TrimSpace(e.chatJid) == "" {
        return;
      }
      ghost var p0, d0 := profiles, disk;
      AppendMedia(e.chatJid, e, MediaPerDirection, now, rfc3339);
      ghost var p1, d1 := profiles, disk;
      IncOutboundFor(e.chatJid, now);
      OwnMessageSteps(p0, d0, p1, d1, profiles, disk, outbox, e, now, rfc3339);
    }

    /** Steps 2 and 2.1 of `OnMessage`: a received message touches the
        profile and records its media, before any filter runs. */
    method OnReceivedProfile(e: Envelope, now: int, dates: Dates, rfc3339: Rfc3339)
      modifies this`profiles, this`disk
      ensures profiles == ReceivedProfiles(old(profiles), old(disk), outbox, e, now, dates, rfc3339)
      ensures disk == ReceivedDisk(old(profiles), old(disk), outbox, e, now, dates, rfc3339)
    {
      ghost var p1 := TouchedProfile(profiles, disk, outbox, e, now, dates);
      ghost var k := InboundKey(e);
      TouchProfileFromInbound(e, now, dates);
      if TrimSpace(e.chatJid) != "" {
        assert k == TrimSpace(e.chatJid) && profiles == old(profiles)[k := p1];
        assert Resolve(profiles, disk, outbox, e.chatJid, now) == p1;
        ghost var d1 := disk;
        AppendMedia(e.chatJid, e, MediaPerDirection, now, rfc3339);
        if MediaKind(e) != "" {
          MapOverwrite(old(profiles), k, p1, FiledMedia(p1, e.chatJid, e, MediaPerDirection, now, rfc3339));
        }
      }
    }

    /** Steps 2 to 6 of `OnMessage` for a received message: the profile is
        updated before the filter chain (`passes` is its verdict), and only
        a passing message reaches the aggregator and the last-seen state. */
    method OnReceived(e: Envelope, passes: bool, now: int, dates: Dates, rfc3339: Rfc3339)
      modifies this`profiles, this`disk, this`aggLog, this`lastChatBySender, this`lastActiveChat, this`lastByChat
      ensures profiles == ReceivedProfiles(old(profiles), old(disk), outbox, e, now, dates, rfc3339)
      ensures disk == ReceivedDisk(old(profiles), old(disk), outbox, e, now, dates, rfc3339)
      ensures !passes ==>
        aggLog == old(aggLog) && lastChatBySender == old(lastChatBySender) &&
        lastActiveChat == old(lastActiveChat) && lastByChat == old(lastByChat)
      ensures passes ==>
        aggLog == old(aggLog) + (if hasAggregator then [Add(e.chatJid)] else []) &&
        lastChatBySender == SenderChats(old(lastChatBySender), e) &&
        lastActiveChat == ActiveChat(old(lastActiveChat), e) &&
        lastByChat == LastSeen(old(lastByChat), e, now, rfc3339)
    {
      OnReceivedProfile(e, now, dates, rfc3339);
      ghost var received := profiles;
      ghost var receivedDisk := disk;
      if passes {
        NotifyAggregator(e.chatJid);
        RememberChat(e);
        RememberLast(e, now, rfc3339);
      }
      assert profiles == received && disk == receivedDisk;
    }

    /** `OnMessage`: own messages (direction `out`, in any case) go to
        `OnOwnMessage` and never reach the aggregator or the last-seen
        state; all others go to `OnReceived`. */
    method OnMessage(e: Envelope, passes: bool, now: int, dates: Dates, rfc3339: Rfc3339)
      modifies this`profiles, this`disk, this`aggLog, this`lastChatBySender, this`lastActiveChat, this`lastByChat
      ensures profiles == MessageProfiles(old(profiles), old(disk), outbox, e, now, dates, rfc3339)
      ensures disk == MessageDisk(old(profiles), old(disk), outbox, e, now, dates, rfc3339)
      ensures var fwd := !EqualFold(e.direction, "out") && passes;
        aggLog == old(aggLog) + (if fwd && hasAggregator then [Add(e.chatJid)] else []) &&
        lastChatBySender == (if fwd then SenderChats(old(lastChatBySender), e) else old(lastChatBySender)) &&
        lastActiveChat == (if fwd then ActiveChat(old(lastActiveChat), e) else old(lastActiveChat)) &&
        lastByChat == (if fwd then LastSeen(old(lastByChat), e, now, rfc3339) else old(lastByChat))
    {
      ghost var p0, d0 := profiles, disk;
      if EqualFold(e.direction, "out") {
        OnOwnMessage(e, now, rfc3339);
      } else {
        OnReceived(e, passes, now, dates, rfc3339);
      }
      MessageSteps(p0, d0, profiles, disk, outbox, e, now, dates, rfc3339);
    }

    /** The debounced aggregator touch for the chat a typing event was
        attributed to: only a chat that already had a message, and only when
        its previous touch is at least the debounce ago (never touched reads
        as the zero time). */
    method TouchTyping(chat: String, now: int)
      modifies this`lastTypingAt, this`aggLog
      ensures TypingFires(chat, old(lastTypingAt), lastByChat, now) ==>
        lastTypingAt == old(lastTypingAt)[chat := now] && aggLog == old(aggLog) + [Touch(chat)]
      ensures !TypingFires(chat, old(lastTypingAt), lastByChat, now) ==>
        lastTypingAt == old(lastTypingAt) && aggLog == old(aggLog)
    {
      if chat != "" && chat in lastByChat {
        var last := if chat in lastTypingAt then lastTypingAt[chat] else ZeroTime;
        if WsSecurity.Sub(now, last) >= TypingDebounce {
          lastTypingAt := lastTypingAt[chat := now];
          aggLog := aggLog + [Touch(chat)];
        }
      }
    }

    /** The typing part of `OnAny`: a typing event (with an aggregator
        present) goes to `TouchTyping` for its target chat without consulting
        any filter. Any other event changes nothing here. */
    method OnAny(e: Envelope, now: int)
      modifies this`lastTypingAt, this`aggLog
      ensures var c := TypingChat(e, old(lastChatBySender), old(lastActiveChat));
        var fire := WsValues.IsTypingEvent(e.eventType, e.receiptType, e.extra) && hasAggregator &&
                    TypingFires(c, old(lastTypingAt), old(lastByChat), now);
        lastTypingAt == (if fire then old(lastTypingAt)[c := now] else old(lastTypingAt)) &&
        aggLog == old(aggLog) + (if fire then [Touch(c)] else [])
    {
      var typing := WsValues.IsTypingEvent(e.eventType, e.receiptType, e.extra);
      if typing && hasAggregator {
        var mapped := if e.senderJid in lastChatBySender then lastChatBySender[e.senderJid] else "";
        TouchTyping(TypingTarget(TrimSpace(e.chatJid), mapped, lastActiveChat), now);
      }
    }
  }

  /** A chat never touched before is touched at once, and a second typing
      event within the debounce is swallowed. */
  lemma TypingDebounceWindow(now: int, last: int)
    requires 0 <= now <= WsSecurity.MaxDuration
    ensures WsSecurity.Sub(now, ZeroTime) >= TypingDebounce
    ensures 0 <= now - last < TypingDebounce ==> WsSecurity.Sub(now, last) < TypingDebounce
  {
  }
}
