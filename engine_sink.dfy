/** The flat NDJSON sink of the event bridge (bot/engine/engine_unified.go):
    every envelope is appended, as one line, to a file chosen by its chat
    (groups, contacts) or, for chat-less events, by its event type (devices,
    system). A file that has reached the byte ceiling is continued in a
    numbered `.partN` sibling. The file system is a map from path to size. */
module EngineSink {
  import opened Text

  /** The runes a path component keeps. */
  predicate IsSafe(c: char) {
    'a' <= c <= 'z' || 'A' <= c <= 'Z' || '0' <= c <= '9' || c == '.' || c == '_' || c == '-'
  }

  predicate AllSafe(s: String) {
    forall i :: 0 <= i < |s| ==> IsSafe(s[i])
  }

  function SafeRunes(s: String): (r: String)
    ensures |r| == |s|
    ensures forall i :: 0 <= i < |s| ==> r[i] == (if IsSafe(s[i]) then s[i] else '_')
  {
    if |s| == 0 then [] else [if IsSafe(s[0]) then s[0] else '_'] + SafeRunes(s[1..])
  }

  /** `sanitizePathPart`: every rune outside `[A-Za-z0-9._-]` becomes `_`;
      an empty result becomes `unknown`. */
  function SanitizePathPart(s: String): (r: String)
    ensures r != [] && AllSafe(r)
    ensures s == [] ==> r == "unknown"
    ensures s != [] ==> |r| == |s|
  {
    if |SafeRunes(s)| == 0 then "unknown" else SafeRunes(s)
  }

  /** A component that is already safe passes through unchanged, so
      sanitising is idempotent. */
  lemma SanitizeKeepsSafe(s: String)
    requires s != [] && AllSafe(s)
    ensures SanitizePathPart(s) == s
  {
  }

  lemma SanitizeIdempotent(s: String)
    ensures SanitizePathPart(SanitizePathPart(s)) == SanitizePathPart(s)
  {
    SanitizeKeepsSafe(SanitizePathPart(s));
  }

  /** Two components that differ only in unsafe runes share a file. */
  lemma SanitizeMergesUnsafe(s: String, t: String)
    requires |s| == |t| > 0
    requires forall i :: 0 <= i < |s| ==> (s[i] == t[i] || (!IsSafe(s[i]) && !IsSafe(t[i])))
    ensures SanitizePathPart(s) == SanitizePathPart(t)
  {
  }

  /** Event types of the device itself. */
  const DeviceEvents: set<String> :=
    {"connected", "logged_out", "history_sync", "offline_sync_completed", "events.IdentityChange"}

  const Groups: String := "groups"
  const Contacts: String := "contacts"
  const Devices: String := "devices"
  const System: String := "system"
  const Ext: String := ".ndjson"

  datatype Route = Route(category: String, file: String)

  /** The chat is a group: `@g.us` or (more loosely) `g.us` at its end. */
  predicate IsGroupChat(chat: String) {
    chat != "" && (HasSuffix(chat, "@g.us") || HasSuffix(chat, "g.us"))
  }

  /** Category of `categoryAndFileNoDate`. */
  function CategoryOf(chat: String, sender: String, eventType: String): String {
    if IsGroupChat(chat) then Groups
    else if chat == "status@broadcast" && sender != "" then Contacts
    else if chat != "" then Contacts
    else if eventType in DeviceEvents then Devices
    else System
  }

  /** File stem of `categoryAndFileNoDate`; the host id of device events is
      the sanitised host name, passed in. */
  function StemOf(chat: String, sender: String, eventType: String, hostname: String): String {
    if IsGroupChat(chat) then SanitizePathPart(chat)
    else if chat == "status@broadcast" && sender != "" then SanitizePathPart(sender)
    else if chat != "" then SanitizePathPart(chat)
    else if eventType in DeviceEvents then SanitizePathPart(hostname)
    else SanitizePathPart(eventType)
  }

  /** `categoryAndFileNoDate`: the category directory is one of four and the
      file name is a non-empty safe stem plus `.ndjson`. */
  function RouteOf(chat: String, sender: String, eventType: String, hostname: String): (r: Route)
    ensures r.category in {Groups, Contacts, Devices, System}
    ensures exists stem :: stem != [] && AllSafe(stem) && r.file == stem + Ext
  {
    var stem := StemOf(chat, sender, eventType, hostname);
    Route(CategoryOf(chat, sender, eventType), stem + Ext)
  }

  /** Group traffic is exactly the traffic of chats ending in `g.us`. */
  lemma GroupsAreGroupChats(chat: String, sender: String, eventType: String, hostname: String)
    ensures RouteOf(chat, sender, eventType, hostname).category == Groups <==> HasSuffix(chat, "g.us")
  {
    GroupChatSuffix(chat);
  }

  lemma GroupChatSuffix(chat: String)
    ensures IsGroupChat(chat) <==> HasSuffix(chat, "g.us")
  {
    if HasSuffix(chat, "@g.us") {
      assert chat[|chat| - 4..] == chat[|chat| - 5..][1..];
    }
  }

  /** Private and status traffic of one contact are unified: a status update
      from `s` lands in the same file as the private chat with `s`. */
  lemma StatusJoinsContactFile(s: String, other: String, eventType1: String, eventType2: String, hostname: String)
    requires s != "" && s != "status@broadcast" && !HasSuffix(s, "g.us")
    ensures RouteOf("status@broadcast", s, eventType1, hostname) == RouteOf(s, other, eventType2, hostname)
    ensures RouteOf(s, other, eventType2, hostname) == Route(Contacts, SanitizePathPart(s) + Ext)
  {
    GroupChatSuffix(s);
    var st: String := "status@broadcast";
    assert st[|st| - 4..] == "cast";
    GroupChatSuffix(st);
    assert CategoryOf(st, s, eventType1) == Contacts;
    assert StemOf(st, s, eventType1, hostname) == SanitizePathPart(s);
    assert CategoryOf(s, other, eventType2) == Contacts;
    assert StemOf(s, other, eventType2, hostname) == SanitizePathPart(s);
  }

  /** Chat-less events are filed by kind: the device's own file for device
      events, one file per event type otherwise. */
  lemma ChatlessEventsByKind(sender: String, eventType: String, hostname: String)
    ensures eventType in DeviceEvents ==>
      RouteOf("", sender, eventType, hostname) == Route(Devices, SanitizePathPart(hostname) + Ext)
    ensures eventType !in DeviceEvents ==>
      RouteOf("", sender, eventType, hostname) == Route(System, SanitizePathPart(eventType) + Ext)
  {
  }

  /** `fmt.Sprintf("%s.part%d", path, i)` */
  function PartPath(path: String, i: nat): String {
    path + ".part" + NatToString(i)
  }

  const MaxPart: nat := 999

  class FlatSink {
    const base: String
    const maxBytes: int
    /** Size in bytes of every existing file, by path. */
    var files: map<String, nat>

    /** `NewFlatSink`: an empty base directory defaults to `outbox`. */
    constructor(base: String, maxBytes: int, files: map<String, nat>)
      ensures this.base == (if base == "" then "outbox" else base)
      ensures this.maxBytes == maxBytes && this.files == files
    {
      this.base := if base == "" then "outbox" else base;
      this.maxBytes := maxBytes;
      this.files := files;
    }

    /** The file at `path` exists and has reached a positive byte ceiling. */
    predicate Full(path: String)
      reads this
    {
      maxBytes > 0 && path in files && files[path] >= maxBytes
    }

    /** What `maybeRotate` answers for `path` in the current state: a path
        that is not full is used as is; a full one is continued in the
        lowest-numbered `.partN` (1 <= N <= 999) that does not exist yet; when
        all 999 exist, the full path is used anyway. */
    predicate RotatesTo(path: String, r: String)
      reads this
    {
      if !Full(path) then r == path
      else if forall i :: 1 <= i <= MaxPart ==> PartPath(path, i) in files then r == path
      else
        r !in files &&
        exists i :: 1 <= i <= MaxPart && r == PartPath(path, i) &&
          forall j :: 1 <= j < i ==> PartPath(path, j) in files
    }

    /** There is exactly one answer: the rotation target is determined by
        the path and the existing files. */
    lemma RotatesToUnique(path: String, r1: String, r2: String)
      requires RotatesTo(path, r1) && RotatesTo(path, r2)
      ensures r1 == r2
    {
      if Full(path) && exists i :: 1 <= i <= MaxPart && PartPath(path, i) !in files {
        var i1 :| 1 <= i1 <= MaxPart && r1 == PartPath(path, i1) &&
          forall j :: 1 <= j < i1 ==> PartPath(path, j) in files;
        var i2 :| 1 <= i2 <= MaxPart && r2 == PartPath(path, i2) &&
          forall j :: 1 <= j < i2 ==> PartPath(path, j) in files;
        assert PartPath(path, i1) !in files && PartPath(path, i2) !in files;
        assert i1 == i2;
      }
    }

    /** A full file whose parts are not all taken is never written again. */
    lemma RotationLeavesFullFile(path: String, r: String)
      requires RotatesTo(path, r) && Full(path)
      requires exists i :: 1 <= i <= MaxPart && PartPath(path, i) !in files
      ensures r != path && r !in files
    {
      var i :| 1 <= i <= MaxPart && r == PartPath(path, i);
      assert |r| > |path|;
    }

    /** `maybeRotate` */
    method MaybeRotate(path: String) returns (r: String)
      ensures RotatesTo(path, r)
    {
      if maxBytes <= 0 || path !in files || files[path] < maxBytes {
        return path;
      }
      var i := 1;
      while i <= MaxPart
        invariant 1 <= i <= MaxPart + 1
        invariant forall j :: 1 <= j < i ==> PartPath(path, j) in files
      {
        var next := PartPath(path, i);
        if next !in files {
          return next;
        }
        i := i + 1;
      }
      return path;
    }

    /** `Append`: routes the envelope, rotates, and appends the payload and a
        newline to the chosen file (created when missing). */
    method Append(chat: String, sender: String, eventType: String, hostname: String, payloadLen: nat)
      returns (target: String)
      modifies this
      ensures var rt := RouteOf(chat, sender, eventType, hostname);
        old(RotatesTo(base + "/" + rt.category + "/" + rt.file, target))
      ensures files == old(files)[target := (if target in old(files) then old(files)[target] else 0) + payloadLen + 1]
    {
      var rt := RouteOf(chat, sender, eventType, hostname);
      var p := base + "/" + rt.category + "/" + rt.file;
      target := MaybeRotate(p);
      var size := if target in files then files[target] else 0;
      files := files[target := size + payloadLen + 1];
    }
  }
}
