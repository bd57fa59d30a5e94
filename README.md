# bob-hackathon core, modelled in Dafny

This project models the deterministic core of the bob-hackathon system. It
proves properties of that model. The system has three parts:

- **The event bridge** (`bot/engine/engine_unified.go`) connects a WhatsApp
  account to the rest of the system. The model covers:
  - the chat address normalisers;
  - the NDJSON folder sink (partitioning, file names, part rotation);
  - the rate-limit and retry decorators of sends;
  - the signed webhook post with its back-off, and its headers as Go's
    `Header.Set` stores them (canonical key spelling, last setter wins);
  - receipt de-duplication;
  - the text and media-ticket extraction rules;
  - the message-id filter of the mark-read calls;
  - the in-place reversal of stored history;
  - the Ogg/Opus duration scanner.
- **The ingestion server** (`bot/cmd/whserver/main.go`) receives the bridge's
  webhooks. The model covers:
  - signature and timestamp checks (section 2 of RFC 2104 for the HMAC
    signature);
  - the message-id deduper and its sweep;
  - the admission order of the `/wh` endpoint;
  - the asynchronous mark-read and dispatch;
  - the typing heuristic;
  - the `SimpleRouter` per-chat state: profiles, day streaks, route tags,
    media history, last-seen chats and typing debounce;
  - the small value readers.
- **The chat API backend** (`backend/internal/...`). The model covers:
  - input validation;
  - the session and lead store;
  - the lead-scoring arithmetic and report;
  - the vehicle cache and search;
  - the chat controller's validation order, reply selection and scoring gate;
  - the orchestrator's decision extraction;
  - the admin-key gate.

Go's time is modelled as integer nanoseconds. Go's string functions used by
the core are modelled once, in module `Text`. This covers trimming, prefixes,
searching, lower-casing, UTF-8 length, decimal parsing and printing, and hex
encoding. Everything the core cannot compute itself is a parameter of the
member that needs it:

- the HMAC, base64 and JSON decoders;
- RFC 3339 parsing;
- UUIDs;
- the language-model agents;
- HTTP outcomes and cancellation;
- the rate limiter's verdict.

Stateful code is modelled as classes whose methods change their fields:

- `FlatSink`, the receipt cache, the deduper and `SimpleRouter`;
- the `/wh` server;
- `SessionService`, `BOBAPIService` and the chat controller.

Loops are methods proved against specification functions. The functions'
own properties are lemmas.

## Model

| member | source | states |
|---|---|---|
| EngineJid.KindOfChat | bot/engine/engine_unified.go:386-394 | group exactly when the server is `g.us`; status exactly when not a group and the address is `status@broadcast`; private otherwise |
| EngineJid.CanonicalChatJid | bot/engine/engine_unified.go:407-421 | `""` stays `""`; a trimmed address with `@` (the status broadcast included) is returned as is; otherwise the trimmed text gets `@s.whatsapp.net` |
| EngineJid.CanonicalShape | bot/engine/engine_unified.go:407-421 | every non-empty input yields a trimmed address containing `@` |
| EngineJid.CanonicalIdempotent | bot/engine/engine_unified.go:407-421 | normalising twice equals normalising once |
| EngineJid.StorageChatJid | bot/engine/engine_unified.go:395-403 | strings not ending in `@lid` are unchanged; the `@lid` suffix is replaced by `@s.whatsapp.net` |
| EngineJid.StorageFoldsAlias | bot/engine/engine_unified.go:395-403 | `u@lid` and `u@s.whatsapp.net` get the same storage key |
| EngineJid.StorageIdempotent | bot/engine/engine_unified.go:395-403 | the storage key of a storage key is itself |
| EngineSink.SafeRunes | bot/engine/engine_unified.go:465-472 | same length; each rune kept when in `[A-Za-z0-9._-]`, else `_` |
| EngineSink.SanitizePathPart | bot/engine/engine_unified.go:463-476 | the result is non-empty and safe; `"unknown"` for empty input; rune count kept otherwise |
| EngineSink.SanitizeKeepsSafe | bot/engine/engine_unified.go:463-476 | a non-empty safe string is unchanged |
| EngineSink.SanitizeIdempotent | bot/engine/engine_unified.go:463-476 | sanitising twice equals sanitising once |
| EngineSink.SanitizeMergesUnsafe | bot/engine/engine_unified.go:463-476 | strings that differ only in unsafe runes share a file name |
| EngineSink.RouteOf | bot/engine/engine_unified.go:484-504 | the category is one of the four directories, and the file is a non-empty safe stem plus `.ndjson` |
| EngineSink.GroupsAreGroupChats | bot/engine/engine_unified.go:486-488 | a record goes to `groups` exactly when its chat ends in `g.us` |
| EngineSink.GroupChatSuffix | bot/engine/engine_unified.go:486 | the two-suffix group test is the same as ending in `g.us` |
| EngineSink.StatusJoinsContactFile | bot/engine/engine_unified.go:490-496 | a status from a sender is filed in the same contact file as that sender's private chat |
| EngineSink.ChatlessEventsByKind | bot/engine/engine_unified.go:498-503 | a record with no chat goes to `devices/<host>` for the five lifecycle events and to `system/<event type>` otherwise |
| EngineSink.FlatSink.constructor | bot/engine/engine_unified.go:454-459 | an empty base directory becomes `outbox` |
| EngineSink.FlatSink.MaybeRotate | bot/engine/engine_unified.go:506-524 | the result satisfies `RotatesTo`: the path when rotation is off or the file is not full, or when all 999 parts exist; otherwise the missing `.partN` with every smaller part present |
| EngineSink.FlatSink.RotatesToUnique | bot/engine/engine_unified.go:506-524 | `RotatesTo` picks exactly one target for a path |
| EngineSink.FlatSink.RotationLeavesFullFile | bot/engine/engine_unified.go:511-521 | a full file with some part missing is never written again: the target is a different, not yet existing file |
| EngineSink.FlatSink.Append | bot/engine/engine_unified.go:526-548 | the record goes to the file `RotatesTo` picks for the routed path in the state before the call, which grows by the payload plus a newline; no other file changes |
| EngineReceipts.ReceiptKeySeparatesTypes | bot/engine/engine_unified.go:1004 | receipts of different types in one chat never share a de-duplication key |
| EngineReceipts.TypeOfKey | bot/engine/engine_unified.go:1004 | the receipt type can be read back from its key |
| EngineReceipts.ReceiptCache.constructor | bot/engine/engine_unified.go:422-425 | the cache starts empty |
| EngineReceipts.ReceiptCache.SeenOnce | bot/engine/engine_unified.go:427-441 | entries older than 5 s are swept; a key still present is a duplicate and keeps its first time; a new key is recorded at now |
| EngineReceipts.Fresh | bot/engine/engine_unified.go:431-435 | the sweep keeps exactly the entries at most 5 s old, unchanged |
| EngineReceipts.ReceiptWindowBehaviour | bot/engine/engine_unified.go:427-441 | a key recorded at most 5 s ago survives the sweep; an older one does not |
| EngineReceipts.NonEmptyIds | bot/engine/engine_unified.go:1319-1327 | exactly the non-empty ids are kept |
| EngineReceipts.ToMsgIds | bot/engine/engine_unified.go:1319-1327 | the loop returns the non-empty ids in order |
| EngineReceipts.NonEmptyIdsCount | bot/engine/engine_unified.go:1319-1327 | each non-empty id is kept exactly as often as it occurs |
| EngineReceipts.MarkReadRequest | bot/engine/engine_unified.go:1329-1354 | no client call when every id is empty; otherwise the call carries the non-empty ids |
| EngineEnvelope.InboundText | bot/engine/engine_unified.go:866-875 | the full precedence: extended text, then conversation, then image caption, then video caption; an empty text means none of them is present |
| EngineEnvelope.OutboundText | bot/engine/engine_unified.go:780-788 | an own message's text is its extended text when there is one and its conversation otherwise; it is empty only when both are absent |
| EngineEnvelope.OutboundIgnoresMedia | bot/engine/engine_unified.go:780-788 | media and captions never contribute to an own message's text |
| EngineEnvelope.OutboundAgreesWithInbound | bot/engine/engine_unified.go:780-788 | the own-message text agrees with the inbound text whenever it is non-empty; otherwise the inbound text is the image or video caption |
| EngineEnvelope.B64 | bot/engine/engine_unified.go:164-169 | empty bytes encode to `""`; otherwise standard base64 |
| EngineEnvelope.MediaTicketOf | bot/engine/engine_unified.go:878-928 | there is a ticket exactly when the message has an image, audio, video or document |
| EngineEnvelope.TicketCarriesCredentials | bot/engine/engine_unified.go:878-928 | the precedence is image > audio > video > document; the ticket copies path, URL, length and the base64 keys and hashes; `seconds` only for audio, `title` only for documents |
| EngineEnvelope.Short | bot/engine/engine_unified.go:366-373 | newlines become spaces; text over `n` runes is cut to `n` runes plus `…` |
| EngineEnvelope.Reversed | bot/engine/engine_unified.go:218-220 | element i of the result is element n-1-i of the input |
| EngineEnvelope.ReverseInPlace | bot/engine/engine_unified.go:218-220 | the swap loop leaves the array reversed |
| EngineEnvelope.ReversedIsChronological | bot/engine/engine_unified.go:191-221 | newest-first rows become oldest-first, and reversing twice is the identity |
| EngineSend.RateLimited | bot/engine/engine_unified.go:232-239 | a refused limiter fails with no id; otherwise the inner send's result |
| EngineSend.WithRetry | bot/engine/engine_unified.go:241-262 | the retry loop equals its reference semantics `RetryFrom` |
| EngineSend.DelayShift | bot/engine/engine_unified.go:256-258 | the delay schedule after one step is the schedule shifted by one |
| EngineSend.BackoffBounded | bot/engine/engine_unified.go:256-258 | the delay never decreases and, doubling only under 5 s, never exceeds 10 s (or the initial delay) |
| EngineSend.RetryTries | bot/engine/engine_unified.go:246-260 | at most `attempts` calls; none when `attempts <= 0`, with the empty result |
| EngineSend.RetryStopsAtFirstSuccess | bot/engine/engine_unified.go:246-250 | every attempt before the last one failed; a success is the last attempt's result |
| EngineSend.RetryWaits | bot/engine/engine_unified.go:251-258 | the waits follow the doubling schedule; there is a wait after every failure, the last one included |
| EngineSend.CallSiteSchedules | bot/engine/engine_unified.go:1174 | the three call sites make 1-3, 1-3 and 1-2 attempts, with waits 250/500/1000, 400/800/1600 and 600/1200 ms |
| EngineSend.SignBody | bot/engine/engine_unified.go:605-612 | no signature for an empty secret; otherwise `sha256=` plus the hex HMAC of the body |
| EngineHeaders.CanonicalKeyRunes | bot/engine/engine_unified.go:626-628 | `Header.Set` canonicalises a key of token characters rune by rune (upper-case at each word start, lower-case elsewhere) and keeps any other key as given |
| EngineHeaders.CanonicalKeyIdempotent | bot/engine/engine_unified.go:626-628 | a canonical key is its own canonical form |
| EngineHeaders.CanonicalKeyIgnoresCase | bot/engine/engine_unified.go:626-628 | keys equal up to case are both token keys or both not, and token keys equal up to case get the same canonical key |
| EngineHeaders.ContentTypeCanonical | bot/engine/engine_unified.go:624 | `Content-Type` is already canonical |
| EngineHeaders.TimestampHeaderCanonical | bot/engine/engine_unified.go:625 | `X-Whatsbot-Timestamp` is already canonical |
| EngineHeaders.SignatureHeaderCanonical | bot/engine/engine_unified.go:630 | `X-Whatsbot-Signature` is already canonical |
| EngineHeaders.SetAllKeys | bot/engine/engine_unified.go:626-628 | after setting a run of pairs a key is present exactly when it was before or some pair sets it |
| EngineHeaders.SetAllLastWins | bot/engine/engine_unified.go:626-628 | the last pair setting a key decides its value |
| EngineHeaders.SetAllKeeps | bot/engine/engine_unified.go:626-628 | a key no pair sets keeps its value |
| EngineHeaders.CustomKeys | bot/engine/engine_unified.go:626-628 | the configured headers add exactly their (mapped) keys |
| EngineHeaders.CustomLastWins | bot/engine/engine_unified.go:626-628 | of configured headers sharing a key, the one visited last holds its value |
| EngineHeaders.CustomKeeps | bot/engine/engine_unified.go:624-628 | a fixed header whose key no configured header takes keeps its value |
| EngineHeaders.SetHeaders | bot/engine/engine_unified.go:624-631 | the final key set is the fixed keys, the configured keys and the signature key; the signature wins; the last configured header per key wins; untouched fixed headers keep their values |
| EngineHeaders.WebhookHeaders | bot/engine/engine_unified.go:624-631 | the keys are `Content-Type`, `X-Whatsbot-Timestamp`, the canonical form of every configured key and, with a secret, `X-Whatsbot-Signature`, which holds the signature |
| EngineHeaders.WebhookHeaderLastWins | bot/engine/engine_unified.go:626-628 | of configured headers with the same canonical key, the one visited last (in map order) wins unless the signature takes that key |
| EngineHeaders.WebhookHeaderDefaults | bot/engine/engine_unified.go:624-628 | content type and timestamp keep their values unless a configured header has the same canonical key |
| EngineHeaders.SignatureSpellings | bot/engine/engine_unified.go:626-631 | a configured header spelled like the signature header in any case lands on its key, so a real signature replaces it |
| EngineHeaders.ContentTypeSpellings | bot/engine/engine_unified.go:624-628 | a configured header spelled like `Content-Type` in any case lands on its key and replaces the default |
| EngineSend.PostJsonWithRetry | bot/engine/engine_unified.go:614-651 | the post loop equals its reference semantics `PostFrom` |
| EngineSend.PostSchedule | bot/engine/engine_unified.go:619-650 | at most 3 sends; success exactly when a send got a 2xx; waits of 250·2^i ms; after three failures the last error is returned |
| EngineSend.PostDelays | bot/engine/engine_unified.go:645 | the waits are 250, 500 and 1000 ms |
| EngineOgg.DurationOf | bot/engine/engine_unified.go:1888-1899 | 30 s without a granule; otherwise the ceiling of granule/48000, clamped to 1..300 |
| EngineOgg.SumSegments | bot/engine/engine_unified.go:1876-1878 | the loop sums the segment table |
| EngineOgg.AnalyzeOggOpus | bot/engine/engine_unified.go:1855-1901 | the scanner equals the page-by-page reference scan, including the unchecked page slice |
| EngineOgg.RejectsNonOgg | bot/engine/engine_unified.go:1856-1858 | the error comes exactly for input shorter than 4 bytes or not starting with `OggS` |
| EngineOgg.DefaultDuration | bot/engine/engine_unified.go:1863-1864 | an Ogg buffer too short for a page header gets 30 s |
| EngineOgg.TruncatedPageOverruns | bot/engine/engine_unified.go:1879 | a truncated last page is sliced beyond the buffer |
| EngineOgg.OggAnalysisChecked | bot/engine/engine_unified.go:1855-1901 | the bounds-checked scan never overruns |
| EngineOgg.CheckedAgreesWhenNoOverrun | bot/engine/engine_unified.go:1862-1887 | when the buffer has no truncated page, both scans find the same last granule |
| EngineOgg.CheckedIsOgg | bot/engine/engine_unified.go:1888-1899 | every Ogg buffer gets a duration of 1..300 s |
| WsValues.StrFromMap | bot/cmd/whserver/main.go:616-626 | the string under the key, else `""` |
| WsValues.U64FromMap | bot/cmd/whserver/main.go:628-662 | missing, null or other values give 0; strings are trimmed and parsed as decimal, else 0; negative numbers give 0 |
| WsValues.U64ReadsBack | bot/cmd/whserver/main.go:628-662 | a number stored as uint64, int64, float or decimal string reads back as itself |
| WsValues.DecimalReadsBack | bot/cmd/whserver/main.go:654-658 | a decimal string reads back as its value |
| WsValues.U32FromMap | bot/cmd/whserver/main.go:664-666 | the 64-bit reading truncated to 32 bits |
| WsValues.KeepLastN | bot/cmd/whserver/main.go:608-613 | everything for `n <= 0`; otherwise a suffix of length min(len, n) |
| WsValues.PreviewText | bot/cmd/whserver/main.go:145-155 | the trimmed text, cut to `max` runes plus `…` when longer |
| WsValues.PreviewBounded | bot/cmd/whserver/main.go:145-155 | a preview is at most one rune over the limit and begins like the trimmed text |
| WsValues.SanitizePathPart | bot/cmd/whserver/main.go:543-557 | non-empty and safe; `"unknown"` for blank input |
| WsValues.SanitizeIgnoresPadding | bot/cmd/whserver/main.go:543-544 | surrounding white space never changes the file name, and the result equals the bridge's sanitiser on trimmed input |
| WsValues.IsTypingEvent | bot/cmd/whserver/main.go:497-529 | a presence event with a string state is decided by that state alone; otherwise by the typing flag or the receipt type |
| WsValues.ReplyWait | bot/cmd/whserver/main.go:476-484 | base wait plus per-rune time plus jitter, capped at the maximum |
| WsSecurity.VerifySignature | bot/cmd/whserver/main.go:162-175 | false for an empty secret or a trimmed header without `sha256=`; otherwise true exactly when the rest is the hex HMAC of the body |
| WsSecurity.SignatureRoundTrip | bot/cmd/whserver/main.go:162-175 | with a secret, the verifier accepts exactly the bridge's signature, up to surrounding white space |
| WsSecurity.Sub | bot/cmd/whserver/main.go:191 | the difference of two instants, saturated to the duration range |
| WsSecurity.HeaderInstant | bot/cmd/whserver/main.go:181-190 | an int64 header is Unix seconds; anything else goes to RFC 3339 |
| WsSecurity.FarFutureTimestampAccepted | bot/cmd/whserver/main.go:191-197 | as written, the header `99999999999` passes any skew |
| WsSecurity.VerifyTimestamp | bot/cmd/whserver/main.go:177-199 | an empty header is missing; a parsed instant passes exactly when it is within the skew of now |
| WsSecurity.TimestampRulesAgreeInRange | bot/cmd/whserver/main.go:177-199 | the as-written and corrected rules agree whenever the distance fits in a duration |
| WsHandler.Admit | bot/cmd/whserver/main.go:1138-1175 | non-POST 405, then body 400, then timestamp 401 (the corrected two-sided `VerifyTimestamp` of the findings below), then signature 401, then JSON 400; admitted exactly when all pass |
| WsHandler.OnlySignedBodiesAdmitted | bot/cmd/whserver/main.go:1160-1165 | with signatures required, exactly the bodies carrying the bridge's signature get past the checks |
| WsHandler.StartupGuard | bot/cmd/whserver/main.go:1006-1009 | a started server that requires signatures outside dev mode has a secret |
| WsHandler.Swept | bot/cmd/whserver/main.go:218-229 | the sweep keeps exactly the entries not before the cut |
| WsHandler.Deduper.constructor | bot/cmd/whserver/main.go:213-217 | empty, with the given window |
| WsHandler.Deduper.Seen | bot/cmd/whserver/main.go:231-245 | `""` is never a duplicate or recorded; an id seen within the window is a duplicate and keeps its time; otherwise it is recorded at now |
| WsHandler.Deduper.Gc | bot/cmd/whserver/main.go:218-229 | one tick deletes exactly the entries older than now minus the window |
| WsHandler.SweepKeepsLiveEntries | bot/cmd/whserver/main.go:218-245 | an entry survives the sweep exactly when `Seen` would call it a duplicate |
| WsHandler.MakeMarkReadFn | bot/cmd/whserver/main.go:944-947 | no function for a blank URL |
| WsHandler.MarkReadCall | bot/cmd/whserver/main.go:948-961 | nothing for an empty chat or no ids; otherwise a `read` receipt for the ids, with a sender only when one is given |
| WsHandler.NilMarkReadPanics | bot/cmd/whserver/main.go:1201-1207 | as written, a received message with no mark-read URL calls the missing function |
| WsHandler.MarkRead | bot/cmd/whserver/main.go:1201-1207 | never calls a missing function; a call happens exactly for a received message with an id; the sender goes only with group chats |
| WsHandler.MarkReadAgreesWhenConfigured | bot/cmd/whserver/main.go:1201-1207 | with a URL configured, the as-written and corrected steps agree |
| WsHandler.MarkReadSenderOnlyInGroups | bot/cmd/whserver/main.go:1204-1207 | a request is sent exactly when the chat is known; it names the message; a sender appears only for group chats |
| WsHandler.Server.constructor | bot/cmd/whserver/main.go:1006-1014 | a server starts only past the start-up guard, with the mark-read function its URL gives |
| WsHandler.Server.Handle | bot/cmd/whserver/main.go:1138-1197 | rejected requests leave the deduper alone; only `message` events are de-duplicated; a duplicate gets the `dup` answer and no work |
| WsHandler.Server.Process | bot/cmd/whserver/main.go:1199-1224 | the mark-read step (the corrected `MarkRead` of the findings below), then by event type: a message changes profiles, profile files and last-seen state exactly as `OnMessage` does and leaves the typing state; a receipt changes nothing; any other event changes only the typing state, as `OnAny` does |
| WsRouter.NewProfile | bot/cmd/whserver/main.go:750-763 | a new profile has `es`, `free`, no tags, no media and zero counters |
| WsRouter.NextStreak | bot/cmd/whserver/main.go:778-796 | same day keeps the streak; a last day equal to the local date of now minus 24 hours (an input, not `today - 1`) adds one; anything else restarts at 1; the last day becomes today |
| WsRouter.ConsecutiveDaysStreak | bot/cmd/whserver/main.go:788-796 | touches on k consecutive new days, each with the day before as its date of 24 hours ago, give a streak of k |
| WsRouter.ShortDayRestartsStreak | bot/cmd/whserver/main.go:788-796 | when the 24 hours before now reach back two calendar days (after a 23-hour day), a streak last extended on the previous calendar day restarts at 1 |
| WsRouter.ConsecutiveFrom | bot/cmd/whserver/main.go:788-796 | each following day adds one |
| WsRouter.SameDayTouchesCountOnce | bot/cmd/whserver/main.go:788-796 | a second touch on the same day changes nothing |
| WsRouter.InboundTags | bot/cmd/whserver/main.go:798-804 | a non-group chat gets the contact file tag, a group chat its group tag; other tags are kept |
| WsRouter.Touched | bot/cmd/whserver/main.go:781-804 | `MsgIn` goes up by one; id, text, chat and times are set; the streak and tags are updated; media untouched |
| WsRouter.WithMedia | bot/cmd/whserver/main.go:713-721 | the entry goes to `Out` for direction `out`, else to `In`, which is cut to its last `maxPerDir`; the other list is untouched |
| WsRouter.MediaHistoryCapped | bot/cmd/whserver/main.go:713-721 | the new entry is always kept, last, and the list never exceeds the cap |
| WsRouter.FiledMedia | bot/cmd/whserver/main.go:670-727 | without a media type the profile is unchanged; filing media never changes metrics or tags |
| WsRouter.FiledMediaCapped | bot/cmd/whserver/main.go:713-721 | with media, the new entry is the last of its direction's list, which stays within the cap |
| WsRouter.CountedOut | bot/cmd/whserver/main.go:814-830 | one more outgoing message, at `now`; incoming count, streak, media, tags and last text unchanged |
| WsRouter.OwnMessageCounted | bot/cmd/whserver/main.go:315-320 | an own message's profile (media filed, then counted) has one more outgoing message, the same incoming count, tags and last text |
| WsRouter.ReceivedMessageCounted | bot/cmd/whserver/main.go:325-331 | a received message's profile (touched, then media filed) has one more incoming message, its id and chat, its route tags and the next streak, whatever the media |
| WsRouter.MessageTouchesOneProfile | bot/cmd/whserver/main.go:313-331 | `OnMessage` changes at most the message's own profile key in memory |
| WsRouter.SenderChats | bot/cmd/whserver/main.go:354-358 | the sender maps to the chat when both are non-blank; other senders are kept |
| WsRouter.ActiveChat | bot/cmd/whserver/main.go:359-363 | a non-blank chat becomes the active one; otherwise the previous one stays |
| WsRouter.LastSeen | bot/cmd/whserver/main.go:366-382 | unchanged for an `@lid` sender outside a group; otherwise the chat's last message is this one; other chats are kept |
| WsRouter.TypingTarget | bot/cmd/whserver/main.go:417-431 | the sender's mapped chat wins, then the raw chat, then the last active chat |
| WsRouter.SimpleRouter.constructor | bot/cmd/whserver/main.go:279-311 | all router maps start empty |
| WsRouter.SimpleRouter.GetOrCreateProfileByKey | bot/cmd/whserver/main.go:732-764 | a blank key yields nothing; otherwise memory, then disk, then a new profile, kept under the trimmed key |
| WsRouter.SimpleRouter.Persist | bot/cmd/whserver/main.go:589-606 | a blank chat writes nothing; otherwise the profile file named after the chat holds the profile |
| WsRouter.SimpleRouter.TouchProfileFromInbound | bot/cmd/whserver/main.go:766-812 | the profile of the chat (or the sender) is touched, kept and saved; no key changes nothing |
| WsRouter.SimpleRouter.IncOutboundFor | bot/cmd/whserver/main.go:814-830 | `MsgOut` goes up by one and the last-message time is set; `""` changes nothing |
| WsRouter.SimpleRouter.AppendMedia | bot/cmd/whserver/main.go:670-727 | a blank chat or no or empty media type changes nothing; otherwise exactly one entry is filed and the profile saved |
| WsRouter.SimpleRouter.NotifyAggregator | bot/cmd/whserver/main.go:351-353 | the aggregator, when present, is told about the chat |
| WsRouter.SimpleRouter.RememberChat | bot/cmd/whserver/main.go:354-363 | the sender's last chat and the last active chat are set only for non-blank ids |
| WsRouter.SimpleRouter.RememberLast | bot/cmd/whserver/main.go:366-382 | `lastByChat` is skipped for `@lid` senders outside groups |
| WsRouter.SimpleRouter.OnOwnMessage | bot/cmd/whserver/main.go:315-323 | without a chat nothing changes; otherwise the trimmed chat's profile becomes `OwnProfile` (media filed, one more outgoing message) in memory and in the chat's profile file, and no other profile or file changes |
| WsRouter.SimpleRouter.OnReceivedProfile | bot/cmd/whserver/main.go:325-331 | before any filter, the profile key's profile becomes `ReceivedProfile` (touched, then media filed); the touched snapshot is saved under the key and, with media, the final one under the chat; nothing else changes |
| WsRouter.SimpleRouter.OnReceived | bot/cmd/whserver/main.go:325-382 | profiles and files change as `OnReceivedProfile` says whatever the filters say; the aggregator, `lastChatBySender`, `lastActiveChat` and `lastByChat` change (to `SenderChats`, `ActiveChat`, `LastSeen`) only when the filters pass |
| WsRouter.SimpleRouter.OnMessage | bot/cmd/whserver/main.go:313-395 | the whole new state: profiles and files as `MessageProfiles`/`MessageDisk` give (own or received path); own messages never reach the aggregator or last-seen state; received ones reach them only past the filters |
| WsRouter.SimpleRouter.TouchTyping | bot/cmd/whserver/main.go:432-450 | the chat is touched (logged, time recorded) exactly when `TypingFires`: non-empty, already has messages, and the debounce has passed; otherwise nothing changes |
| WsRouter.SimpleRouter.OnAny | bot/cmd/whserver/main.go:413-453 | a typing event (with an aggregator) touches `TypingChat` exactly when `TypingFires`, bypassing the filters; the typing time and the log change only then |
| WsRouter.TypingDebounceWindow | bot/cmd/whserver/main.go:441-442 | a chat never touched before is touched at once; a second typing event within 700 ms is not |
| Validation.SanitizeControlChars | backend/internal/utils/validation.go:79-91 | never longer than the input; only `\n`, `\r`, `\t` and runes ≥ 0x20 remain |
| Validation.SanitizeCounts | backend/internal/utils/validation.go:79-91 | each kept rune occurs as often as in the input, each dropped rune not at all |
| Validation.SanitizeIsSubsequence | backend/internal/utils/validation.go:79-91 | the output keeps the input's order |
| Validation.SanitizeKeepsClean | backend/internal/utils/validation.go:79-91 | clean text is unchanged |
| Validation.SanitizeIdempotent | backend/internal/utils/validation.go:79-91 | sanitising twice equals sanitising once |
| Validation.AnyPatternIn | backend/internal/utils/validation.go:110-114 | true exactly when one of the patterns occurs |
| Validation.IsInjectionAttempt | backend/internal/utils/validation.go:94-122 | true exactly when the lower-cased text has one of the nine patterns, or there are more than 5 `'` or more than 10 `"` |
| Validation.InjectionIgnoresCase | backend/internal/utils/validation.go:94-122 | texts equal up to letter case are judged alike |
| Validation.ValidateAndSanitizeMessage | backend/internal/utils/validation.go:16-37 | empty after trimming, then over 2000 runes (before sanitising), then forbidden patterns in the sanitised text, each with its own error; accepted exactly otherwise, and the accepted text is the trimmed message with control characters removed |
| Validation.AcceptedMessage | backend/internal/utils/validation.go:16-37 | an accepted message is clean, at most 2000 runes, in the input's order, and not an injection |
| Validation.TautologyRefused | backend/internal/utils/validation.go:94-122 | `' OR 1=1` is refused for its pattern |
| Validation.ControlRuneOnlyComesOutEmpty | backend/internal/utils/validation.go:16-37 | a message of one control rune passes the emptiness check and comes out empty |
| Validation.ValidateSessionId | backend/internal/utils/validation.go:40-57 | `""` is accepted; otherwise at most 100 bytes, checked first, and only `[A-Za-z0-9_-]` |
| Validation.SessionIdCharsAreBytes | backend/internal/utils/validation.go:46-52 | an id of allowed characters has one byte per rune |
| Validation.SessionIdAccepted | backend/internal/utils/validation.go:40-57 | the byte limit is the rune limit for accepted ids |
| Validation.ValidateChannel | backend/internal/utils/validation.go:60-76 | `""` is accepted; otherwise accepted exactly when the lower-cased value is `web`, `whatsapp` or `api` |
| Validation.ChannelIgnoresCase | backend/internal/utils/validation.go:60-76 | letter case never matters |
| Validation.MixedCaseChannelAccepted | backend/internal/utils/validation.go:60-73 | `WhatsApp` is accepted |
| Sessions.SessionKey | backend/internal/services/session_service.go:46-48 | the given id, or `channel-<fresh id>` when none is given |
| Sessions.NewSession | backend/internal/services/session_service.go:55-66 | no messages, score 0, category `cold` |
| Sessions.WithMessage | backend/internal/services/session_service.go:85-92 | exactly one message is appended at the end; earlier ones unchanged |
| Sessions.StoredLead | backend/internal/services/session_service.go:136-142 | `UpdatedAt` is now; `CreatedAt` is now only for a new lead |
| Sessions.MatchingSize | backend/internal/services/session_service.go:148-169 | one result per matching visited lead |
| Sessions.MatchingMembers | backend/internal/services/session_service.go:148-169 | every result is a stored lead that passes both filters |
| Sessions.MatchingDistinct | backend/internal/services/session_service.go:148-169 | no lead is listed twice |
| Sessions.FilterLeads | backend/internal/services/session_service.go:154-166 | the loop returns the matching leads in visiting order |
| Sessions.SessionService.constructor | backend/internal/services/session_service.go:27-39 | both maps start empty |
| Sessions.SessionService.Save | backend/internal/services/session_service.go:237-252 | the snapshot holds both maps |
| Sessions.SessionService.GetOrCreateSession | backend/internal/services/session_service.go:41-73 | an existing session is returned unchanged with nothing saved; otherwise a new one is stored under its key and saved |
| Sessions.SessionService.AddMessage | backend/internal/services/session_service.go:75-95 | an unknown id changes nothing; otherwise one message is appended and saved |
| Sessions.SessionService.GetSession | backend/internal/services/session_service.go:97-102 | the stored session, or none |
| Sessions.SessionService.GetMessages | backend/internal/services/session_service.go:104-114 | the stored messages, or none |
| Sessions.SessionService.UpdateScore | backend/internal/services/session_service.go:116-130 | score and category change only for an existing session |
| Sessions.SessionService.CreateOrUpdateLead | backend/internal/services/session_service.go:132-146 | the lead is stored under its session id, created now only if new |
| Sessions.SessionService.GetLead | backend/internal/services/session_service.go:171-176 | the stored lead, or none |
| Sessions.SessionService.GetAllLeads | backend/internal/services/session_service.go:148-169 | exactly the leads matching the non-empty filters, each once |
| Sessions.SessionService.GetLeadsStats | backend/internal/services/session_service.go:178-215 | the total is the lead count; each category count is its lead count and the four are at most the total; the channel counts sum to the total |
| Sessions.Tallied | backend/internal/services/session_service.go:193-207 | the loop's total is the one it starts with |
| Sessions.CategoryCountIsSize | backend/internal/services/session_service.go:196-205 | a category's count is the number of its visited leads |
| Sessions.ChannelCountIsSize | backend/internal/services/session_service.go:207 | a channel's count is the number of its visited leads |
| Sessions.TalliedCategories | backend/internal/services/session_service.go:193-207 | the four category counters are the per-category counts and sum to at most the leads visited |
| Sessions.TalliedChannels | backend/internal/services/session_service.go:207 | each channel counter is that channel's count |
| Sessions.TalliedChannelSeen | backend/internal/services/session_service.go:207 | a channel has a counter exactly when one of its leads was visited |
| Sessions.TalliedCovers | backend/internal/services/session_service.go:207 | every visited lead's channel has a counter |
| Sessions.TalliedSum | backend/internal/services/session_service.go:207 | the channel counters sum to the leads visited |
| Sessions.TalliedAll | backend/internal/services/session_service.go:178-215 | over all keys, the counters are the category and channel sizes |
| Sessions.CountLeads | backend/internal/services/session_service.go:193-207 | the loop computes the tally |
| Sessions.CountCategory | backend/internal/services/session_service.go:196-205 | one lead bumps exactly its category's counter |
| Sessions.CategoryBumped | backend/internal/services/session_service.go:196-205 | one counter goes up by one, and only for the four known categories |
| Scoring.DimensionMap | backend/internal/agents/scoring_agent.go:288-296 | the seven dimension keys map to their scores |
| Scoring.Points | backend/internal/agents/scoring_agent.go:305-334 | an entry without the sign, or without a number after it, counts 0 |
| Scoring.Clamp | backend/internal/agents/scoring_agent.go:343-351 | the score limited to 0..100 |
| Scoring.CategoryFor | backend/internal/agents/scoring_agent.go:353-363 | ≥85 hot, ≥65 warm, ≥45 cold, otherwise discarded |
| Scoring.DefaultScoring | backend/internal/agents/scoring_agent.go:377-388 | score 0, `discarded`, no boosts, one penalty naming the reason |
| Scoring.Scored | backend/internal/agents/scoring_agent.go:298-374 | the clamped sum of dimensions plus boosts minus penalties, its category, and the copied fields |
| Scoring.ParseScoring | backend/internal/agents/scoring_agent.go:271-375 | the parser equals its reference `ScoringOf`, which cuts the JSON with the corrected `JsonSpan` of the findings below (inverted braces fall back instead of panicking) |
| Scoring.SumDimensions | backend/internal/agents/scoring_agent.go:299-302 | the sum over the dimension map, whatever the visiting order |
| Scoring.AddBoosts | backend/internal/agents/scoring_agent.go:305-318 | the loop adds each boost's points |
| Scoring.SubtractPenalties | backend/internal/agents/scoring_agent.go:321-334 | the loop subtracts each penalty's points |
| Scoring.ScoreAndCategoryConsistent | backend/internal/agents/scoring_agent.go:336-363 | every score is in 0..100 and its category is recomputed from it |
| Scoring.NoBracesGivesDefault | backend/internal/agents/scoring_agent.go:274-279 | a reply without `{` or `}` gives the default with one penalty |
| Scoring.ModelTotalIgnored | backend/internal/agents/scoring_agent.go:336-341 | the model's own total and category never matter |
| Scoring.SignedNumberCounts | backend/internal/agents/scoring_agent.go:305-334 | `name<sign>N rest` counts N |
| Scoring.SignInNameCountsZero | backend/internal/agents/scoring_agent.go:321-334 | a name containing the sign before the number counts 0 |
| Scoring.CategoryEmoji | backend/internal/agents/scoring_agent.go:391-401 | 🔥 hot, 🌡️ warm, ❄️ cold, 📊 any other |
| Scoring.Section | backend/internal/agents/scoring_agent.go:410-416 | nothing for an empty list; otherwise the title then the items joined by `, ` |
| Scoring.GenerateScoringMessage | backend/internal/agents/scoring_agent.go:390-419 | the message is the header, the three details, then boosts and penalties only when present |
| Scoring.MessageOpensWithEmoji | backend/internal/agents/scoring_agent.go:403-404 | the message opens with the category emoji and the score line |
| Scoring.DefaultMessageShowsReason | backend/internal/agents/scoring_agent.go:377-419 | the default's message ends with its one penalty, and has no boosts section |
| JsonText.BraceSpan | backend/internal/agents/scoring_agent.go:274-281 | missing exactly without `{` or `}`; out of range exactly when the first `{` is after the last `}` plus one; otherwise the slice from `{` to `}` |
| JsonText.InvertedBracesPanic | backend/internal/agents/scoring_agent.go:281 | as written, `} {` slices out of range |
| JsonText.JsonSpan | backend/internal/agents/orchestrator.go:121-133 | none when braces are missing or inverted; otherwise the span from the first `{` to the last `}` inclusive |
| JsonText.JsonSpanAgrees | backend/internal/agents/orchestrator.go:121-133 | the corrected span equals the as-written one wherever that one is defined |
| JsonText.SpanIgnoresSurroundingText | backend/internal/agents/orchestrator.go:121-133 | an object wrapped in brace-free text is extracted exactly |
| Orchestrator.Fallback | backend/internal/agents/orchestrator.go:124-131 | the apology, not routed, intent ambiguous, confidence 0 |
| Orchestrator.ParseDecision | backend/internal/agents/orchestrator.go:118-152 | missing braces (or, by the corrected `JsonSpan` of the findings below, inverted ones) or a decode failure give the fallback; a decoded decision's fields are copied unchanged |
| Orchestrator.RoutesOnlyOnDecision | backend/internal/agents/orchestrator.go:145-151 | routing happens only for a decoded decision that asks for it |
| AdminAuth.PresentedKey | backend/internal/middleware/auth.go:18-25 | a non-empty `X-Admin-Key` first; else the text after `Bearer ` when the header is longer than 7; else `""` |
| AdminAuth.Check | backend/internal/middleware/auth.go:12-49 | proceeds exactly when the key is non-empty and equals the configured one; 401 Missing for no key, 401 Invalid for a wrong one |
| AdminAuth.EmptyConfiguredKeyRejectsAll | backend/internal/middleware/auth.go:28-44 | with no configured key nothing gets through |
| AdminAuth.AdminHeaderTakesPrecedence | backend/internal/middleware/auth.go:18-25 | with `X-Admin-Key` set, `Authorization` is never read |
| AdminAuth.BothFormsAccepted | backend/internal/middleware/auth.go:18-47 | both header forms admit the configured key |
| AdminAuth.EmptyBearerIsMissing | backend/internal/middleware/auth.go:22-35 | a bare `Bearer ` presents no key |
| Vehicles.Converted | backend/internal/services/bob_api_service.go:90-103 | one vehicle per item, in order |
| Vehicles.Fetched | backend/internal/services/bob_api_service.go:53-103 | transport, status, read and parse errors fail in that order, each with its own error; success exactly when status 200 with a readable body that decodes, and then the converted list |
| Vehicles.ConvertItems | backend/internal/services/bob_api_service.go:90-103 | the loop converts every item |
| Vehicles.FilteredSound | backend/internal/services/bob_api_service.go:120-146 | every result is in the list and passes every active filter |
| Vehicles.FilteredComplete | backend/internal/services/bob_api_service.go:120-146 | every listed vehicle passing the filters is found |
| Vehicles.FilteredConcat | backend/internal/services/bob_api_service.go:120-146 | filtering keeps the list's order |
| Vehicles.SearchLimit | backend/internal/services/bob_api_service.go:148-151 | with a positive limit, at most that many, always a prefix of all matches |
| Vehicles.SearchLoop | backend/internal/services/bob_api_service.go:118-154 | the loop with its early break returns the first `limit` matches |
| Vehicles.StopAtLimit | backend/internal/services/bob_api_service.go:149-151 | stopping at the limit already yields the whole answer |
| Vehicles.FirstWithId | backend/internal/services/bob_api_service.go:163-169 | the first vehicle with the id, or none exactly when none has it |
| Vehicles.Listed | backend/internal/services/bob_api_service.go:181-191 | at most `limit` lines, none for a non-positive limit |
| Vehicles.VehicleService.constructor | backend/internal/services/bob_api_service.go:28-40 | an empty cache, never fetched |
| Vehicles.VehicleService.GetSublots | backend/internal/services/bob_api_service.go:42-110 | the cache is returned without fetching exactly when not forced, younger than 5 minutes and non-empty; failures leave cache and time alone; success replaces them |
| Vehicles.VehicleService.SearchVehicles | backend/internal/services/bob_api_service.go:112-155 | a fresh cache is used as is; otherwise a failed fetch is returned with the cache untouched and a good one replaces the cache and its time; the result is the search over the cache |
| Vehicles.VehicleService.GetVehicleById | backend/internal/services/bob_api_service.go:157-170 | the cache is refreshed as in `SearchVehicles`; then a fetch error, the first vehicle with the id, or not found |
| Vehicles.VehicleService.GetVehiclesContext | backend/internal/services/bob_api_service.go:172-194 | the cache is refreshed as in `SearchVehicles`; `""` on a fetch error; otherwise the header and one line for each of the first `limit` vehicles |
| Vehicles.FindById | backend/internal/services/bob_api_service.go:163-169 | the loop finds the first vehicle with the id |
| Vehicles.ContextStartsWithHeader | backend/internal/services/bob_api_service.go:178-191 | the context opens with its header and has a line per vehicle |
| Vehicles.WriteContext | backend/internal/services/bob_api_service.go:178-193 | the loop writes the header and the first `limit` lines |
| ChatController.Bind | backend/internal/controllers/chat_controller.go:55-62 | binding fails on bad JSON or a missing message or channel |
| ChatController.Admit | backend/internal/controllers/chat_controller.go:55-92 | bind, then message, then session id, then channel; the first failure is refused; an admitted request carries the sanitised message |
| ChatController.AdmittedRequestIsClean | backend/internal/controllers/chat_controller.go:64-92 | an admitted request has a known channel, a valid id and a clean message of at most 2000 runes |
| ChatController.SelectReply | backend/internal/controllers/chat_controller.go:118-145 | not routed: the orchestrator's reply; routed to faq or auction: that agent's reply, or the orchestrator's on error; other routes: the orchestrator's |
| ChatController.ReplyFromRoutedAgent | backend/internal/controllers/chat_controller.go:118-145 | the reply is the orchestrator's or that of the agent routed to |
| ChatController.UnreadableDecisionApologises | backend/internal/controllers/chat_controller.go:118-145 | an unreadable decision answers with the apology |
| ChatController.ControllerCategoryAgrees | backend/internal/controllers/chat_controller.go:176-185 | the controller's thresholds are the scoring agent's |
| ChatController.ScoreTurn | backend/internal/controllers/chat_controller.go:150-208 | under 6 messages the session's score stays, with `cold` for an empty category; a scoring error gives 0 and `cold`; otherwise the (smoothed) score, its category and the lead |
| ChatController.FirstScoreIsAgents | backend/internal/controllers/chat_controller.go:162-185 | without an earlier positive score, the turn's score and category are the agent's |
| ChatController.TurnCategoryNonEmpty | backend/internal/controllers/chat_controller.go:150-208 | a turn's category is never empty |
| ChatController.Marked | backend/internal/controllers/chat_controller.go:293-303 | each item with the marker in front |
| ChatController.ScoreReasons | backend/internal/controllers/chat_controller.go:281-303 | three fixed entries, then each boost, then each penalty, in order |
| ChatController.BuildReasons | backend/internal/controllers/chat_controller.go:281-303 | the loops build those reasons |
| ChatController.Controller.constructor | backend/internal/controllers/chat_controller.go:54 | the controller works on the given store |
| ChatController.Controller.SendMessage | backend/internal/controllers/chat_controller.go:54-224 | a refused request is a 400 with the store untouched; an admitted one runs the turn on the store |
| ChatController.Controller.Converse | backend/internal/controllers/chat_controller.go:94-223 | the request's effect on the store and its answer are those of `Turn` |
| ChatController.Controller.Answer | backend/internal/controllers/chat_controller.go:147-223 | the reply is appended to the conversation; its score and category are the scoring step's, stored on the conversation; the lead is stored only when one was made; the answer carries id, reply, score and category |
| ChatController.Controller.ScoreConversation | backend/internal/controllers/chat_controller.go:150-208 | the scoring step's score and category, with the lead stored only when one was made |
| ChatController.Controller.GetScore | backend/internal/controllers/chat_controller.go:226-306 | 400 for bad input or id, 404 for an unknown session, 500 for a scoring error; otherwise the agent's score, category and reasons |
| ChatController.Opened | backend/internal/controllers/chat_controller.go:95 | the stored session, or a new one |
| ChatController.TurnOutcome | backend/internal/controllers/chat_controller.go:94-223 | an orchestrator error is a 500 after the user message was stored; otherwise only that session changes, gaining the assistant reply, the answer carries its score and a non-empty category, and leads change only from the 6th message |

## Left out

- The WhatsApp protocol client is not modelled: session checks, connecting,
  the event loop, sending, marking read, typing, downloads and history sync.
  Only the rules they apply are modelled, such as the id filter of the
  mark-read calls and the text and ticket extraction.
- Chat-name resolution and identity-change parsing use reflection and are
  not part of this model.
- EngineJid.Jid: a protocol address keeps only its user and server parts.
  The device and agent suffixes that `JID.String()` also prints are dropped,
  so `KindOfChat` compares the address without them with
  `status@broadcast`.
- Storage I/O is modelled as maps:
  - the SQLite message store is not modelled, except the reversal loop;
  - profile files are a map from path to profile;
  - sink files are a map from path to size;
  - the session store's save is the snapshot it writes;
  - loading from disk is not modelled.
- HMAC-SHA256, base64, JSON encoding and decoding, RFC 3339 parsing, UUIDs
  and the rate limiter's internals are parameters of the members that need
  them.
- Goroutines, mutexes, tickers, sleeps and signals are not modelled.
  - Each locked section is one method call.
  - A `gc` tick is one call of `Deduper.Gc`.
  - Each request or event uses one `now`.
- Floating point is left out:
  - Ogg scanner: the waveform placeholder is not modelled. With `preSkip`
    always 0, the duration is the integer ceiling.
  - Controller smoothing `int(0.7·prev + 0.3·raw)` is the parameter `smooth`.
  - Lead stats: `AvgScore` is not modelled.
  - Vehicle context: the `%.2f` price format is the parameter
    `formatPrice`.
  - Reply wait: the random jitter is an input constrained by `ValidJitter`.
- `pipeline.Aggregator`, `filters.Chain` and `rules.Engine` are not among
  the files modelled.
  - The aggregator's `Add` and `Touch` calls are recorded in a ghost log.
  - The filter chain's verdict is the input `passes`.
  - The rules envelope is only stored.
- The language-model agents and their prompts are not modelled, and neither
  is `callBOBBackend`.
  - Each agent call is an input: failed, or answered with text.
  - The sub-agents' answers are `Option`s.
  - The agent's `ScoringData` is never nil with the scoring agent shown, so
    the controller's "No se pudo generar scoring" branch is not modelled.
  - A sub-agent that answers neither an error nor an output is not
    modelled.
  - The value of `IntentAmbiguo` is declared outside the files modelled, so
    it is a parameter.
- The HTTP senders `makeSendFn`, `makeTypingFn` and `postJSON` are not
  modelled beyond the mark-read guard. Neither are the health and debug
  endpoints, the server's `OnReceipt` (which only logs), the flush callback
  or the other REST handlers of the chat API.
- Go map iteration order is an input `order`: a listing of the map's keys.
- The wording of gin's `required` validation error is the parameter
  `requiredError`.
- Lower-casing and case-folding cover ASCII letters only.
- Wiring, configuration and logging are not modelled.
- Scoring.Points: its contract states only when an entry counts 0. What a
  well-formed entry counts is stated by `Scoring.SignedNumberCounts`.
- Scoring.Scored: the score is an unbounded integer. Go's 64-bit overflow
  of the running sum is not modelled.
- WsValues.U64FromMap: for int and float values the contract states only
  that a positive result is the value itself (floats truncated). A float of
  2^64 or more converts to 2^63 (`TwoTo63`, the amd64 result), which the
  contract does not single out.
- WsHandler.Admit, WsHandler.Server.Process, Scoring.ParseScoring and
  Orchestrator.ParseDecision follow the corrected rules of the findings
  below, not the code as written: with timestamps enabled, the header
  `99999999999`, which the code admits, is rejected by `Admit`; `Process`
  never calls a missing mark-read function; a reply whose last `}` precedes
  its first `{` falls back instead of panicking. The as-written behaviour is
  modelled by the as-written members named there.
- File paths are built by joining with `/`. Go's `filepath.Join` also
  cleans the result (a doubled or trailing separator, `.` and `..`
  segments); the model keeps the joined text as it is, so two spellings of
  one directory are two paths here.
- Where the description of the system and the code disagree, the code is
  followed:
  - the receipt de-duplication key (engine_unified.go:1004) joins chat, type
    and ids;
  - the history reversal sits at engine_unified.go:218-220.

## Findings

| source | as written | input that shows it | evidently intended | confidence | as-written member | corrected member |
|---|---|---|---|---|---|---|
| bot/cmd/whserver/main.go:191-197 | the age `time.Since(ts)` saturates to the most negative duration, and negating that yields itself, which is below any skew | header `99999999999` (year 5138) with the timestamp check enabled | reject timestamps further than the skew from now in either direction | not executed; high | WsSecurity.FarFutureTimestampAccepted | WsSecurity.TimestampRulesAgreeInRange |
| backend/internal/agents/scoring_agent.go:281 | `text[start:end+1]` is taken whenever both braces exist, even when the last `}` comes before the first `{`; the same slice is at orchestrator.go:133 | model reply `} {` | treat inverted braces like missing ones and fall back | not executed; high | JsonText.InvertedBracesPanic | JsonText.JsonSpanAgrees |
| bot/engine/engine_unified.go:1879 | the page slice `data[i:i+pageSize]` is bounds-checked only for the segment table, not for the page body | `OggS`, 22 zero bytes, then `1, 255, 0` (a truncated page) | stop scanning at a truncated page | not executed; high | EngineOgg.TruncatedPageOverruns | EngineOgg.CheckedAgreesWhenNoOverrun |
| bot/cmd/whserver/main.go:1201-1207 | `markReadFn` is nil when no mark-read URL is configured, and it is still called for every received message with an id | a received `message` with id `m1` and an empty mark-read URL | skip marking read when there is no mark-read function | not executed; medium | WsHandler.NilMarkReadPanics | WsHandler.MarkReadAgreesWhenConfigured |
