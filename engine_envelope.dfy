/** What the event bridge (bot/engine/engine_unified.go) extracts from a chat
    message for its forward envelope: the text, by a fixed precedence that
    differs between received and own messages, and the media ticket that lets
    a consumer download the attachment; plus the log abbreviation and the
    oldest-first ordering of stored history. */
module EngineEnvelope {
  import opened Text

  /** One attachment sub-message (image, audio, video or document). */
  datatype Media = Media(
    mimetype: String, url: String, directPath: String, fileLength: nat,
    mediaKey: seq<byte>, fileSha256: seq<byte>, fileEncSha256: seq<byte>,
    caption: String, title: String, seconds: nat)

  /** The parts of a protocol message the bridge reads. An extended text
      sub-message is present with `Some`; an unset conversation is `""`. */
  datatype WaMessage = WaMessage(
    conversation: String, extendedText: Option<String>,
    image: Option<Media>, audio: Option<Media>, video: Option<Media>, document: Option<Media>)

  predicate HasExtendedText(m: WaMessage) {
    m.extendedText.Some? && m.extendedText.value != ""
  }

  predicate HasCaption(o: Option<Media>) {
    o.Some? && o.value.caption != ""
  }

  /** Text of a received message: extended text, then plain conversation,
      then image caption, then video caption. */
  function InboundText(msg: Option<WaMessage>): (t: String)
    ensures msg.None? ==> t == ""
    ensures msg.Some? && HasExtendedText(msg.value) ==> t == msg.value.extendedText.value
    ensures msg.Some? && !HasExtendedText(msg.value) && msg.value.conversation != "" ==> t == msg.value.conversation
    ensures msg.Some? && !HasExtendedText(msg.value) && msg.value.conversation == "" && HasCaption(msg.value.image) ==>
      t == msg.value.image.value.caption
    ensures msg.Some? && !HasExtendedText(msg.value) && msg.value.conversation == "" &&
            !HasCaption(msg.value.image) && HasCaption(msg.value.video) ==>
              t == msg.value.video.value.caption
    ensures msg.Some? && t == "" ==>
      !HasExtendedText(msg.value) && msg.value.conversation == "" &&
      !HasCaption(msg.value.image) && !HasCaption(msg.value.video)
  {
    match msg
    case None => ""
    case Some(m) =>
      if HasExtendedText(m) then m.extendedText.value
      else if m.conversation != "" then m.conversation
      else if HasCaption(m.image) then m.image.value.caption
      else if HasCaption(m.video) then m.video.value.caption
      else ""
  }

  /** Text of the account's own message: extended text, then conversation;
      captions are not consulted. */
  function OutboundText(msg: Option<WaMessage>): (t: String)
    ensures msg.None? ==> t == ""
    ensures msg.Some? && HasExtendedText(msg.value) ==> t == msg.value.extendedText.value
    ensures msg.Some? && !HasExtendedText(msg.value) ==> t == msg.value.conversation
    ensures msg.Some? && t == "" ==> !HasExtendedText(msg.value) && msg.value.conversation == ""
  {
    match msg
    case None => ""
    case Some(m) =>
      if HasExtendedText(m) then m.extendedText.value
      else if m.conversation != "" then m.conversation
      else ""
  }

  /** The own-message text never looks at attachments: dropping every
      attachment leaves it unchanged. */
  lemma OutboundIgnoresMedia(m: WaMessage)
    ensures OutboundText(Some(m)) == OutboundText(Some(m.(image := None, audio := None, video := None, document := None)))
  {
  }

  /** Both directions agree whenever the own-message rule finds a text; they
      differ only on messages whose only text is a caption. */
  lemma OutboundAgreesWithInbound(msg: Option<WaMessage>)
    ensures OutboundText(msg) != "" ==> InboundText(msg) == OutboundText(msg)
    ensures OutboundText(msg) == "" && msg.Some? ==>
      InboundText(msg) == (if HasCaption(msg.value.image) then msg.value.image.value.caption
                           else if HasCaption(msg.value.video) then msg.value.video.value.caption
                           else "")
  {
  }

  /** Base64 encoding of a non-empty byte string; not modelled. */
  type Encoder = seq<byte> -> String

  /** `b64`: empty bytes give an empty string. */
  function B64(b: seq<byte>, enc: Encoder): (s: String)
    ensures b == [] ==> s == ""
    ensures b != [] ==> s == enc(b)
  {
    if |b| == 0 then "" else enc(b)
  }

  /** The media ticket of an envelope: everything a consumer needs to fetch
      and decrypt the attachment. `seconds` only for audio, `title` only for
      documents. */
  datatype MediaTicket = MediaTicket(
    kind: String, mimetype: String, url: String, directPath: String, fileLength: nat,
    mediaKeyB64: String, fileSha256B64: String, fileEncSha256B64: String, mediaType: String,
    seconds: Option<nat>, title: Option<String>)

  function TicketOf(kind: String, x: Media, enc: Encoder): MediaTicket {
    MediaTicket(kind, x.mimetype, x.url, x.directPath, x.fileLength,
                B64(x.mediaKey, enc), B64(x.fileSha256, enc), B64(x.fileEncSha256, enc), kind,
                if kind == "audio" then Some(x.seconds) else None,
                if kind == "document" then Some(x.title) else None)
  }

  /** The attachment the ticket describes: image before audio before video
      before document. */
  function ChosenMedia(m: WaMessage): Option<(String, Media)> {
    if m.image.Some? then Some(("image", m.image.value))
    else if m.audio.Some? then Some(("audio", m.audio.value))
    else if m.video.Some? then Some(("video", m.video.value))
    else if m.document.Some? then Some(("document", m.document.value))
    else None
  }

  /** The ticket built for both received and own messages. */
  function MediaTicketOf(msg: Option<WaMessage>, enc: Encoder): (t: Option<MediaTicket>)
    ensures t.Some? <==> msg.Some? && (msg.value.image.Some? || msg.value.audio.Some? ||
                                       msg.value.video.Some? || msg.value.document.Some?)
  {
    match msg
    case None => None
    case Some(m) =>
      match ChosenMedia(m)
      case None => None
      case Some((kind, x)) => Some(TicketOf(kind, x, enc))
  }

  /** The ticket carries the download credentials (direct path, key and both
      hashes) of exactly the attachment chosen by precedence, and its type and
      media type agree. */
  lemma TicketCarriesCredentials(m: WaMessage, enc: Encoder)
    requires m.image.Some? || m.audio.Some? || m.video.Some? || m.document.Some?
    ensures var t := MediaTicketOf(Some(m), enc).value;
      var x := if m.image.Some? then m.image.value
               else if m.audio.Some? then m.audio.value
               else if m.video.Some? then m.video.value
               else m.document.value;
      t.kind == t.mediaType &&
      t.kind == (if m.image.Some? then "image" else if m.audio.Some? then "audio"
                 else if m.video.Some? then "video" else "document") &&
      t.directPath == x.directPath && t.url == x.url && t.fileLength == x.fileLength &&
      t.mediaKeyB64 == B64(x.mediaKey, enc) && t.fileSha256B64 == B64(x.fileSha256, enc) &&
      t.fileEncSha256B64 == B64(x.fileEncSha256, enc) &&
      (t.seconds.Some? <==> t.kind == "audio") && (t.title.Some? <==> t.kind == "document")
  {
  }

  /** `short`: newlines become spaces; longer text is cut to `n` runes and
      marked with an ellipsis. */
  function Short(s: String, n: int): (r: String)
    requires n >= 0
    ensures '\n' !in r
    ensures |s| <= n ==> r == ReplaceChar(s, '\n', ' ')
    ensures |s| > n ==> |r| == n + 1 && r[..n] == ReplaceChar(s, '\n', ' ')[..n] && r[n] == '…'
  {
    var t := ReplaceChar(s, '\n', ' ');
    if |t| <= n then t else t[..n] + "…"
  }

  /** A row of the message store. */
  datatype StoredMessage = StoredMessage(
    id: String, sender: String, content: String, timestamp: int, isFromMe: bool,
    mediaType: String, filename: String, url: String)

  function Reversed<T>(s: seq<T>): (r: seq<T>)
    ensures |r| == |s|
    ensures forall i :: 0 <= i < |s| ==> r[i] == s[|s| - 1 - i]
  {
    seq(|s|, i requires 0 <= i < |s| => s[|s| - 1 - i])
  }

  /** The in-place swap loop of `GetRecentMessages`. */
  method ReverseInPlace<T>(a: array<T>)
    modifies a
    ensures a[..] == Reversed(old(a[..]))
  {
    var i := 0;
    var j := a.Length - 1;
    while i < j
      invariant 0 <= i <= a.Length && j == a.Length - 1 - i && i <= j + 1
      invariant forall k :: 0 <= k < i ==> a[k] == old(a[a.Length - 1 - k]) && a[a.Length - 1 - k] == old(a[k])
      invariant forall k :: i <= k <= j ==> a[k] == old(a[k])
    {
      a[i], a[j] := a[j], a[i];
      i, j := i + 1, j - 1;
    }
  }

  predicate NewestFirst(rows: seq<StoredMessage>) {
    forall i, j :: 0 <= i < j < |rows| ==> rows[i].timestamp >= rows[j].timestamp
  }

  predicate OldestFirst(rows: seq<StoredMessage>) {
    forall i, j :: 0 <= i < j < |rows| ==> rows[i].timestamp <= rows[j].timestamp
  }

  /** Rows selected newest first come out in chronological order, and
      reversing twice gives the selection back. */
  lemma ReversedIsChronological(rows: seq<StoredMessage>)
    requires NewestFirst(rows)
    ensures OldestFirst(Reversed(rows))
    ensures Reversed(Reversed(rows)) == rows
  {
    var r := Reversed(rows);
    forall i, j | 0 <= i < j < |r|
      ensures r[i].timestamp <= r[j].timestamp
    {
      assert r[i] == rows[|rows| - 1 - i] && r[j] == rows[|rows| - 1 - j];
    }
  }
}
