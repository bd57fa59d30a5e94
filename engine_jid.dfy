/** Address normalisation of the event bridge (bot/engine/engine_unified.go):
    the canonical chat id put in every envelope, the storage key that folds the
    linked-id alias onto the primary contact id, and the chat kind used in logs. */
module EngineJid {
  import opened Text

  const PrimaryServer: String := "@s.whatsapp.net"
  const LinkedServer: String := "@lid"
  const StatusBroadcast: String := "status@broadcast"

  /** A protocol address: user part and server part (device and agent
      suffixes are not modelled). */
  datatype Jid = Jid(user: String, server: String) {
    /** `JID.String()`: the bare server when there is no user part. */
    function ToString(): String {
      if user == "" then server else user + "@" + server
    }
  }

  datatype ChatKind = Group | Status | Private

  /** `kindOfChat`: group server first, then the status broadcast id. */
  function KindOfChat(j: Jid): (k: ChatKind)
    ensures k == Group <==> j.server == "g.us"
    ensures k == Status <==> j.server != "g.us" && j.ToString() == StatusBroadcast
  {
    if j.server == "g.us" then Group
    else if j.ToString() == StatusBroadcast then Status
    else Private
  }

  /** `canonicalChatJID`: trims the address; an address that already names a
      server is kept, a bare user part gets the primary server appended. The
      empty string stays empty. */
  function CanonicalChatJid(s: String): (r: String)
    ensures s == "" ==> r == ""
    ensures s != "" && '@' in TrimSpace(s) ==> r == TrimSpace(s)
    ensures s != "" && '@' !in TrimSpace(s) ==> r == TrimSpace(s) + PrimaryServer
  {
    if s == "" then ""
    else
      var t := TrimSpace(s);
      if t == StatusBroadcast then t
      else if '@' in t then t
      else t + PrimaryServer
  }

  /** Every non-empty canonical id names a server and has no surrounding
      white space. */
  lemma CanonicalShape(s: String)
    requires s != ""
    ensures '@' in CanonicalChatJid(s)
    ensures TrimSpace(CanonicalChatJid(s)) == CanonicalChatJid(s)
  {
    var t := TrimSpace(s);
    var r := CanonicalChatJid(s);
    if '@' in t {
      TrimSpaceIdempotent(s);
    } else {
      TrimSpaceFacts(s);
      assert r == t + PrimaryServer;
      assert r[|r| - 1] == 't';
      assert r[|t|] == '@';
      if t != [] {
        assert r[0] == t[0];
      } else {
        assert r[0] == '@';
      }
      TrimSpaceOfTrimmed(r);
    }
  }

  /** `canonicalChatJID` is idempotent. */
  lemma CanonicalIdempotent(s: String)
    ensures CanonicalChatJid(CanonicalChatJid(s)) == CanonicalChatJid(s)
  {
    if s != "" {
      CanonicalShape(s);
    }
  }

  /** `storageChatJID`: the linked-id alias `u@lid` is stored under the primary
      id `u@s.whatsapp.net`; everything else is kept as is. */
  function StorageChatJid(s: String): (r: String)
    ensures !HasSuffix(s, LinkedServer) ==> r == s
    ensures HasSuffix(s, LinkedServer) ==> r == s[..|s| - |LinkedServer|] + PrimaryServer
  {
    if s == "" then ""
    else if HasSuffix(s, LinkedServer) then TrimSuffix(s, LinkedServer) + PrimaryServer
    else s
  }

  /** The two address forms of one contact share one storage key. */
  lemma StorageFoldsAlias(u: String)
    ensures StorageChatJid(u + LinkedServer) == u + PrimaryServer
    ensures StorageChatJid(u + PrimaryServer) == u + PrimaryServer
  {
    var a := u + PrimaryServer;
    assert a[|a| - 1] == 't';
    assert !HasSuffix(a, LinkedServer);
    assert (u + LinkedServer)[..|u|] == u;
  }

  /** `storageChatJID` is idempotent: its output never ends in the alias suffix. */
  lemma StorageIdempotent(s: String)
    ensures StorageChatJid(StorageChatJid(s)) == StorageChatJid(s)
  {
    var r := StorageChatJid(s);
    if HasSuffix(s, LinkedServer) {
      assert r[|r| - 1] == 't';
    }
  }
}
