/** Receipt handling of the event bridge (bot/engine/engine_unified.go): the
    dedupe key of a delivery receipt, the five-second "seen once" cache that
    suppresses repeated receipts, and the message-id filter in front of the
    mark-read calls. */
module EngineReceipts {
  import opened Text

  const Second: int := 1_000_000_000
  const ReceiptWindow: int := 5 * Second

  /** `chat|type|id1,id2,...` */
  function ReceiptKey(chat: String, receiptType: String, ids: seq<String>): String {
    chat + "|" + receiptType + "|" + Join(ids, ",")
  }

  /** In one chat, receipts of different types never share a key (chat ids
      and receipt types carry no `|`). */
  lemma ReceiptKeySeparatesTypes(chat: String, t1: String, t2: String, ids1: seq<String>, ids2: seq<String>)
    requires '|' !in chat && '|' !in t1 && '|' !in t2
    requires t1 != t2
    ensures ReceiptKey(chat, t1, ids1) != ReceiptKey(chat, t2, ids2)
  {
    var k1 := ReceiptKey(chat, t1, ids1);
    var k2 := ReceiptKey(chat, t2, ids2);
    TypeOfKey(chat, t1, ids1);
    TypeOfKey(chat, t2, ids2);
  }

  /** The receipt type is the field between the first and the second `|`. */
  lemma TypeOfKey(chat: String, t: String, ids: seq<String>)
    requires '|' !in chat && '|' !in t
    ensures var k := ReceiptKey(chat, t, ids);
      |chat| < |k| && UpToFirst(k[|chat| + 1..], '|') == t
  {
    var k := ReceiptKey(chat, t, ids);
    var rest := t + "|" + Join(ids, ",");
    assert k[|chat| + 1..] == rest;
    assert rest[..|t|] == t && rest[|t|] == '|';
    UpToFirstAt(rest, '|', |t|);
  }

  lemma UpToFirstAt(s: String, c: char, i: nat)
    requires i < |s| && s[i] == c && c !in s[..i]
    ensures UpToFirst(s, c) == s[..i]
  {
  }

  /** The process-wide receipt cache: key and the instant it was first seen. */
  class ReceiptCache {
    var seen: map<String, int>

    constructor()
      ensures seen == map[]
    {
      seen := map[];
    }

    /** `seenReceiptOnce`: drops every entry older than five seconds, then
        reports a key still present as a repeat (without refreshing it) and
        records a new key at `now`. */
    method SeenOnce(key: String, now: int) returns (dup: bool)
      modifies this
      ensures dup <==> key in Fresh(old(seen), now)
      ensures dup ==> seen == Fresh(old(seen), now)
      ensures !dup ==> seen == Fresh(old(seen), now)[key := now]
    {
      var pending := seen.Keys;
      ghost var start := seen;
      while pending != {}
        invariant pending <= start.Keys
        invariant forall k :: k in seen <==> (k in start && (k in pending || now - start[k] <= ReceiptWindow))
        invariant forall k :: k in seen ==> seen[k] == start[k]
        decreases |pending|
      {
        var k :| k in pending;
        if now - seen[k] > ReceiptWindow {
          seen := seen - {k};
        }
        pending := pending - {k};
      }
      assert seen == Fresh(start, now);
      if key in seen {
        return true;
      }
      seen := seen[key := now];
      return false;
    }
  }

  /** The entries that survive a sweep at `now`. */
  function Fresh(m: map<String, int>, now: int): (r: map<String, int>)
    ensures forall k :: k in r <==> k in m && now - m[k] <= ReceiptWindow
    ensures forall k :: k in r ==> r[k] == m[k]
  {
    map k | k in m && now - m[k] <= ReceiptWindow :: m[k]
  }

  /** Replaying a receipt within five seconds of its first sighting is a
      repeat; after more than five seconds it counts as new again. */
  lemma ReceiptWindowBehaviour(m: map<String, int>, key: String, t: int, now: int)
    requires key in m && m[key] == t
    ensures now - t <= ReceiptWindow ==> key in Fresh(m, now)
    ensures now - t > ReceiptWindow ==> key !in Fresh(m, now)
  {
  }

  /** `toMsgIDs`: the non-empty ids, in order. */
  function NonEmptyIds(ids: seq<String>): (r: seq<String>)
    ensures |r| <= |ids|
    ensures forall x :: x in r <==> x in ids && x != ""
  {
    if |ids| == 0 then []
    else if ids[0] == "" then NonEmptyIds(ids[1..])
    else [ids[0]] + NonEmptyIds(ids[1..])
  }

  method ToMsgIds(ids: seq<String>) returns (out: seq<String>)
    ensures out == NonEmptyIds(ids)
  {
    out := [];
    var i := 0;
    while i < |ids|
      invariant 0 <= i <= |ids|
      invariant out + NonEmptyIds(ids[i..]) == NonEmptyIds(ids)
    {
      assert ids[i..] == [ids[i]] + ids[i + 1..];
      if ids[i] != "" {
        out := out + [ids[i]];
      }
      i := i + 1;
    }
    assert ids[i..] == [];
  }

  /** The id filter keeps every non-empty id as often as it occurs. */
  lemma {:induction false} NonEmptyIdsCount(ids: seq<String>, x: String)
    requires x != ""
    ensures multiset(NonEmptyIds(ids))[x] == multiset(ids)[x]
  {
    if |ids| > 0 {
      NonEmptyIdsCount(ids[1..], x);
      assert ids == [ids[0]] + ids[1..];
    }
  }

  /** `MarkRead` / `MarkReadWithSender` / `MarkPlayedVoice`: the client is
      asked only when some id is non-empty, and only with those ids. */
  function MarkReadRequest(ids: seq<String>): (r: Option<seq<String>>)
    ensures r.None? <==> forall i :: 0 <= i < |ids| ==> ids[i] == ""
    ensures r.Some? ==> r.value == NonEmptyIds(ids) && |r.value| > 0
  {
    var m := NonEmptyIds(ids);
    assert forall i :: 0 <= i < |ids| ==> ids[i] in ids;
    if |m| == 0 then None else assert m[0] in m; Some(m)
  }
}
