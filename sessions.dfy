/** The session store of the chat API
    (backend/internal/services/session_service.go): conversations and leads
    kept in two maps, every change followed by a save of both maps. The save
    is modelled as the snapshot it writes; loading from disk and the JSON
    encoding are not modelled. */
module Sessions {
  import opened Text

  datatype Message = Message(role: String, content: String, timestamp: int)

  datatype Session = Session(
    sessionId: String, channel: String, messages: seq<Message>, createdAt: int, updatedAt: int,
    leadScore: int, category: String, metadata: map<String, String>)

  datatype Lead = Lead(
    sessionId: String, channel: String, score: int, category: String, urgency: String, budget: String,
    businessType: String, reasons: seq<String>, lastMessage: String, createdAt: int, updatedAt: int,
    metadata: map<String, String>)

  /** `LeadStats` without the floating-point average. */
  datatype LeadStats = LeadStats(total: nat, hot: nat, warm: nat, cold: nat, discarded: nat, byChannel: map<String, nat>)

  /** The key a conversation is stored under: the given id, or a fresh one
      prefixed with the channel when none is given. */
  function SessionKey(sessionId: String, channel: String, freshId: String): (k: String)
    ensures sessionId != "" ==> k == sessionId
    ensures sessionId == "" ==> HasPrefix(k, channel + "-") && k[|channel| + 1..] == freshId
  {
    if sessionId == "" then channel + "-" + freshId else sessionId
  }

  /** A new conversation: no messages, score 0, category `cold`. */
  function NewSession(id: String, channel: String, now: int): (s: Session)
    ensures s.sessionId == id && s.channel == channel && s.messages == []
    ensures s.leadScore == 0 && s.category == "cold" && s.createdAt == now == s.updatedAt
  {
    Session(id, channel, [], now, now, 0, "cold", map[])
  }

  /** A conversation with one more message at the end. */
  function WithMessage(s: Session, m: Message, now: int): (r: Session)
    ensures |r.messages| == |s.messages| + 1
    ensures r.messages[..|s.messages|] == s.messages && r.messages[|s.messages|] == m
    ensures r.(messages := s.messages, updatedAt := s.updatedAt) == s
    ensures r.updatedAt == now
  {
    s.(messages := s.messages + [m], updatedAt := now)
  }

  /** The lead as stored: stamped with `now`, and created now only when no
      lead was stored under its id before. */
  function StoredLead(lead: Lead, existed: bool, now: int): (r: Lead)
    ensures r.updatedAt == now
    ensures r.createdAt == if existed then lead.createdAt else now
    ensures r.(createdAt := lead.createdAt, updatedAt := lead.updatedAt) == lead
  {
    lead.(updatedAt := now, createdAt := if existed then lead.createdAt else now)
  }

  /** The filter of `GetAllLeads`: an empty filter matches everything. */
  predicate LeadMatches(l: Lead, category: String, channel: String) {
    (category == "" || l.category == category) && (channel == "" || l.channel == channel)
  }

  function MatchingIds(leads: map<String, Lead>, category: String, channel: String): set<String> {
    set k | k in leads && LeadMatches(leads[k], category, channel)
  }

  function KeysWithCategory(leads: map<String, Lead>, category: String): set<String> {
    set k | k in leads && leads[k].category == category
  }

  function KeysWithChannel(leads: map<String, Lead>, channel: String): set<String> {
    set k | k in leads && leads[k].channel == channel
  }

  /** A listing of the map's keys, each once: the order in which Go's
      `range` visits them, which the language leaves unspecified. */
  predicate EnumeratesKeys(order: seq<String>, leads: map<String, Lead>) {
    Distinct(order) && InMap(order, leads) && forall k :: k in leads ==> k in order
  }

  predicate InMap(order: seq<String>, leads: map<String, Lead>) {
    forall i :: 0 <= i < |order| ==> order[i] in leads
  }

  function Elems(order: seq<String>): set<String> {
    set k | k in order
  }

  /** The leads `GetAllLeads` returns when the map is visited in `order`. */
  function Matching(leads: map<String, Lead>, order: seq<String>, category: String, channel: String): seq<Lead>
    requires InMap(order, leads)
  {
    if |order| == 0 then []
    else
      var l := leads[order[|order| - 1]];
      Matching(leads, order[..|order| - 1], category, channel) + (if LeadMatches(l, category, channel) then [l] else [])
  }

  /** The result has one entry per matching visited key. */
  lemma {:induction false} MatchingSize(leads: map<String, Lead>, order: seq<String>, category: String, channel: String)
    requires InMap(order, leads) && Distinct(order)
    ensures |Matching(leads, order, category, channel)| == |MatchingIds(leads, category, channel) * Elems(order)|
  {
    if |order| > 0 {
      var init := order[..|order| - 1];
      var k := order[|order| - 1];
      MatchingSize(leads, init, category, channel);
      assert Elems(order) == Elems(init) + {k};
      assert k !in Elems(init);
      SetStep(MatchingIds(leads, category, channel), Elems(init), k);
    }
  }

  /** Every entry is the stored lead of a visited key, and it matches. */
  lemma {:induction false} MatchingMembers(leads: map<String, Lead>, order: seq<String>, category: String, channel: String)
    requires InMap(order, leads)
    requires forall k :: k in leads ==> leads[k].sessionId == k
    ensures StoredMatches(leads, Matching(leads, order, category, channel), Elems(order), category, channel)
  {
    if |order| > 0 {
      var init := order[..|order| - 1];
      var k := order[|order| - 1];
      MatchingMembers(leads, init, category, channel);
      var r0 := Matching(leads, init, category, channel);
      var r := Matching(leads, order, category, channel);
      assert r == r0 + (if LeadMatches(leads[k], category, channel) then [leads[k]] else []);
      forall i | 0 <= i < |r|
        ensures r[i].sessionId in Elems(order) && r[i].sessionId in leads && r[i] == leads[r[i].sessionId]
        ensures LeadMatches(r[i], category, channel)
      {
        if i < |r0| {
          assert r[i] == r0[i];
          assert r0[i].sessionId in Elems(init);
        } else {
          assert r[i] == leads[k];
          assert k in Elems(order);
        }
      }
    }
  }

  /** Every entry of `r` is the stored lead of one of `keys`, and it matches. */
  ghost predicate StoredMatches(leads: map<String, Lead>, r: seq<Lead>, keys: set<String>, category: String, channel: String) {
    forall i :: 0 <= i < |r| ==>
      r[i].sessionId in keys && r[i].sessionId in leads && r[i] == leads[r[i].sessionId] &&
      LeadMatches(r[i], category, channel)
  }

  predicate DistinctIds(r: seq<Lead>) {
    forall i, j :: 0 <= i < j < |r| ==> r[i].sessionId != r[j].sessionId
  }

  /** No key is listed twice. */
  lemma {:induction false} MatchingDistinct(leads: map<String, Lead>, order: seq<String>, category: String, channel: String)
    requires InMap(order, leads) && Distinct(order)
    requires forall k :: k in leads ==> leads[k].sessionId == k
    ensures DistinctIds(Matching(leads, order, category, channel))
  {
    if |order| > 0 {
      var init := order[..|order| - 1];
      var k := order[|order| - 1];
      MatchingDistinct(leads, init, category, channel);
      MatchingMembers(leads, init, category, channel);
      assert k !in Elems(init);
      var r0 := Matching(leads, init, category, channel);
      var r := Matching(leads, order, category, channel);
      assert r == r0 + (if LeadMatches(leads[k], category, channel) then [leads[k]] else []);
      forall i, j | 0 <= i < j < |r|
        ensures r[i].sessionId != r[j].sessionId
      {
        assert r[i] == r0[i];
        assert r0[i].sessionId in Elems(init);
        if j < |r0| {
          assert r[j] == r0[j];
        } else {
          assert r[j] == leads[k];
        }
      }
    }
  }

  /** The loop of `GetAllLeads`. */
  method FilterLeads(leads: map<String, Lead>, order: seq<String>, category: String, channel: String) returns (r: seq<Lead>)
    requires InMap(order, leads)
    ensures r == Matching(leads, order, category, channel)
  {
    r := [];
    var i := 0;
    while i < |order|
      invariant 0 <= i <= |order|
      invariant r == Matching(leads, order[..i], category, channel)
    {
      assert order[..i + 1][..i] == order[..i];
      var lead := leads[order[i]];
      if LeadMatches(lead, category, channel) {
        r := r + [lead];
      }
      i := i + 1;
    }
    assert order[..|order|] == order;
  }

  /** Counting over one more key. */
  lemma SetStep(a: set<String>, done: set<String>, k: String)
    requires k !in done
    ensures a * (done + {k}) == (a * done) + (if k in a then {k} else {})
    ensures |a * (done + {k})| == |a * done| + (if k in a then 1 else 0)
  {
    if k in a {
      assert k !in a * done;
    }
  }

  /** A count read from the `ByChannel` map; a missing channel counts 0. */
  function Get(m: map<String, nat>, k: String): nat {
    if k in m then m[k] else 0
  }

  /** The sum of the counts of the listed channels. */
  function SumAt(m: map<String, nat>, keys: seq<String>): nat {
    if |keys| == 0 then 0 else SumAt(m, keys[..|keys| - 1]) + Get(m, keys[|keys| - 1])
  }

  predicate Distinct(s: seq<String>) {
    forall i, j :: 0 <= i < j < |s| ==> s[i] != s[j]
  }

  /** Incrementing a listed channel adds one to the sum. */
  lemma {:induction false} SumBump(m: map<String, nat>, keys: seq<String>, c: String)
    requires Distinct(keys) && c in keys
    ensures SumAt(m[c := Get(m, c) + 1], keys) == SumAt(m, keys) + 1
  {
    var init := keys[..|keys| - 1];
    var last := keys[|keys| - 1];
    if last == c {
      SumAgree(m, m[c := Get(m, c) + 1], init);
    } else {
      assert c in init;
      SumBump(m, init, c);
    }
  }

  /** Maps that agree on the listed channels have the same sum over them. */
  lemma {:induction false} SumAgree(m: map<String, nat>, n: map<String, nat>, keys: seq<String>)
    requires forall i :: 0 <= i < |keys| ==> Get(m, keys[i]) == Get(n, keys[i])
    ensures SumAt(m, keys) == SumAt(n, keys)
  {
    if |keys| > 0 {
      SumAgree(m, n, keys[..|keys| - 1]);
    }
  }

  /** The store, with the snapshot the last save wrote. */
  class SessionService {
    var sessions: map<String, Session>
    var leads: map<String, Lead>
    /** What the last `saveToDisk` wrote. */
    var savedSessions: map<String, Session>
    var savedLeads: map<String, Lead>

    /** Every conversation and lead is stored under its own id. */
    predicate Valid()
      reads this
    {
      (forall k :: k in sessions ==> sessions[k].sessionId == k) &&
      (forall k :: k in leads ==> leads[k].sessionId == k)
    }

    constructor()
      ensures Valid() && sessions == map[] && leads == map[]
    {
      sessions := map[];
      leads := map[];
      savedSessions := map[];
      savedLeads := map[];
    }

    /** `saveToDisk`: both maps are written. */
    method Save()
      modifies this`savedSessions, this`savedLeads
      ensures savedSessions == sessions && savedLeads == leads
    {
      savedSessions := sessions;
      savedLeads := leads;
    }

    /** `GetOrCreateSession`: the stored conversation unchanged when the key
        exists, otherwise a new one stored under the key and saved. */
    method GetOrCreateSession(sessionId: String, channel: String, freshId: String, now: int) returns (s: Session)
      requires Valid()
      modifies this`sessions, this`savedSessions, this`savedLeads
      ensures Valid()
      ensures var id := SessionKey(sessionId, channel, freshId);
        s.sessionId == id && id in sessions && sessions[id] == s &&
        (id in old(sessions) ==> s == old(sessions)[id] && sessions == old(sessions) &&
                                 savedSessions == old(savedSessions) && savedLeads == old(savedLeads)) &&
        (id !in old(sessions) ==> s == NewSession(id, channel, now) && sessions == old(sessions)[id := s] &&
                                  savedSessions == sessions && savedLeads == leads)
    {
      var id := SessionKey(sessionId, channel, freshId);
      if id in sessions {
        return sessions[id];
      }
      s := NewSession(id, channel, now);
      sessions := sessions[id := s];
      Save();
    }

    /** `AddMessage`: an unknown id changes nothing; otherwise one message is
        appended and the maps are saved. */
    method AddMessage(sessionId: String, role: String, content: String, now: int)
      requires Valid()
      modifies this`sessions, this`savedSessions, this`savedLeads
      ensures Valid()
      ensures sessionId !in old(sessions) ==>
        sessions == old(sessions) && savedSessions == old(savedSessions) && savedLeads == old(savedLeads)
      ensures sessionId in old(sessions) ==>
        sessions == old(sessions)[sessionId := WithMessage(old(sessions)[sessionId], Message(role, content, now), now)] &&
        savedSessions == sessions && savedLeads == leads
    {
      if sessionId !in sessions {
        return;
      }
      sessions := sessions[sessionId := WithMessage(sessions[sessionId], Message(role, content, now), now)];
      Save();
    }

    /** `GetSession` */
    function GetSession(sessionId: String): (r: Option<Session>)
      reads this
      ensures r.Some? <==> sessionId in sessions
      ensures r.Some? ==> r.value == sessions[sessionId]
    {
      if sessionId in sessions then Some(sessions[sessionId]) else None
    }

    /** `GetMessages`: the conversation's messages, none for an unknown id. */
    function GetMessages(sessionId: String): (r: seq<Message>)
      reads this
      ensures sessionId !in sessions ==> r == []
      ensures sessionId in sessions ==> r == sessions[sessionId].messages
    {
      match GetSession(sessionId)
      case None => []
      case Some(s) => s.messages
    }

    /** `UpdateScore`: score, category and update time of an existing
        conversation; nothing otherwise. */
    method UpdateScore(sessionId: String, score: int, category: String, now: int)
      requires Valid()
      modifies this`sessions, this`savedSessions, this`savedLeads
      ensures Valid()
      ensures sessionId !in old(sessions) ==>
        sessions == old(sessions) && savedSessions == old(savedSessions) && savedLeads == old(savedLeads)
      ensures sessionId in old(sessions) ==>
        sessions == old(sessions)[sessionId := old(sessions)[sessionId].(leadScore := score, category := category, updatedAt := now)] &&
        savedSessions == sessions && savedLeads == leads
    {
      if sessionId !in sessions {
        return;
      }
      sessions := sessions[sessionId := sessions[sessionId].(leadScore := score, category := category, updatedAt := now)];
      Save();
    }

    /** `CreateOrUpdateLead`: the lead replaces whatever was stored under
        its id. */
    method CreateOrUpdateLead(lead: Lead, now: int)
      requires Valid()
      modifies this`leads, this`savedSessions, this`savedLeads
      ensures Valid()
      ensures leads == old(leads)[lead.sessionId := StoredLead(lead, lead.sessionId in old(leads), now)]
      ensures savedSessions == sessions && savedLeads == leads
    {
      leads := leads[lead.sessionId := StoredLead(lead, lead.sessionId in leads, now)];
      Save();
    }

    /** `GetLead` */
    function GetLead(sessionId: String): (r: Option<Lead>)
      reads this
      ensures r.Some? <==> sessionId in leads
      ensures r.Some? ==> r.value == leads[sessionId]
    {
      if sessionId in leads then Some(leads[sessionId]) else None
    }

    /** `GetAllLeads`: each matching lead once, in the order the map is
        visited. */
    method GetAllLeads(category: String, channel: String, order: seq<String>) returns (r: seq<Lead>)
      requires Valid() && EnumeratesKeys(order, leads)
      ensures r == Matching(leads, order, category, channel)
      ensures |r| == |MatchingIds(leads, category, channel)|
      ensures forall i :: 0 <= i < |r| ==>
        r[i].sessionId in MatchingIds(leads, category, channel) && r[i] == leads[r[i].sessionId]
      ensures forall i, j :: 0 <= i < j < |r| ==> r[i].sessionId != r[j].sessionId
    {
      r := FilterLeads(leads, order, category, channel);
      MatchingSize(leads, order, category, channel);
      MatchingMembers(leads, order, category, channel);
      MatchingDistinct(leads, order, category, channel);
      assert MatchingIds(leads, category, channel) * Elems(order) == MatchingIds(leads, category, channel);
    }

    /** `GetLeadsStats` (without the average), with the channels in the
        order the loop met them as a ghost result. */
    method GetLeadsStats(order: seq<String>) returns (stats: LeadStats, ghost channels: seq<String>)
      requires EnumeratesKeys(order, leads)
      ensures stats.total == |leads|
      ensures stats.hot == |KeysWithCategory(leads, "hot")|
      ensures stats.warm == |KeysWithCategory(leads, "warm")|
      ensures stats.cold == |KeysWithCategory(leads, "cold")|
      ensures stats.discarded == |KeysWithCategory(leads, "discarded")|
      ensures stats.hot + stats.warm + stats.cold + stats.discarded <= stats.total
      ensures forall ch :: ch in stats.byChannel ==> stats.byChannel[ch] == |KeysWithChannel(leads, ch)|
      ensures forall k :: k in leads ==> leads[k].channel in stats.byChannel
      ensures Distinct(channels) && (forall ch :: ch in stats.byChannel <==> ch in channels)
      ensures SumAt(stats.byChannel, channels) == stats.total
    {
      stats := CountLeads(leads, order);
      channels := ChannelsSeen(leads, order);
      TalliedAll(leads, order);
      TalliedSum(leads, order, |leads|);
      forall ch
        ensures ch in stats.byChannel <==> ch in channels
      {
        TalliedChannelSeen(leads, order, |leads|, ch);
      }
      TalliedCovers(leads, order, |leads|);
      forall k | k in leads
        ensures leads[k].channel in stats.byChannel
      {
        var i :| 0 <= i < |order| && order[i] == k;
      }
      DistinctSize(order);
      assert Elems(order) == leads.Keys;
    }
  }

  /** The counters after the loop of `GetLeadsStats` has visited `order`;
      `total` is set before the loop. */
  function Tallied(leads: map<String, Lead>, order: seq<String>, total: nat): (s: LeadStats)
    requires InMap(order, leads)
    ensures s.total == total
  {
    if |order| == 0 then LeadStats(total, 0, 0, 0, 0, map[])
    else
      var s := Tallied(leads, order[..|order| - 1], total);
      var l := leads[order[|order| - 1]];
      CategoryBumped(s, l.category).(byChannel := s.byChannel[l.channel := Get(s.byChannel, l.channel) + 1])
  }

  /** How many visited leads have the category. */
  function CategoryCount(leads: map<String, Lead>, order: seq<String>, category: String): nat
    requires InMap(order, leads)
  {
    if |order| == 0 then 0
    else CategoryCount(leads, order[..|order| - 1], category) + (if leads[order[|order| - 1]].category == category then 1 else 0)
  }

  /** How many visited leads came from the channel. */
  function ChannelCount(leads: map<String, Lead>, order: seq<String>, channel: String): nat
    requires InMap(order, leads)
  {
    if |order| == 0 then 0
    else ChannelCount(leads, order[..|order| - 1], channel) + (if leads[order[|order| - 1]].channel == channel then 1 else 0)
  }

  /** The channels in the order the loop first meets them. */
  ghost function ChannelsSeen(leads: map<String, Lead>, order: seq<String>): seq<String>
    requires InMap(order, leads)
  {
    if |order| == 0 then []
    else
      var cs := ChannelsSeen(leads, order[..|order| - 1]);
      var ch := leads[order[|order| - 1]].channel;
      if ch in cs then cs else cs + [ch]
  }

  /** Dropping the last of distinct listed keys: the rest is still a
      distinct listing, and the last key is new to it. */
  lemma LastStep(leads: map<String, Lead>, order: seq<String>)
    requires InMap(order, leads) && Distinct(order) && |order| > 0
    ensures InMap(order[..|order| - 1], leads) && Distinct(order[..|order| - 1])
    ensures Elems(order) == Elems(order[..|order| - 1]) + {order[|order| - 1]}
    ensures order[|order| - 1] !in Elems(order[..|order| - 1])
  {
    var init := order[..|order| - 1];
    assert order == init + [order[|order| - 1]];
  }

  /** Over distinct keys, counting positions counts keys. */
  lemma {:induction false} CategoryCountIsSize(leads: map<String, Lead>, order: seq<String>, category: String)
    requires InMap(order, leads) && Distinct(order)
    ensures CategoryCount(leads, order, category) == |KeysWithCategory(leads, category) * Elems(order)|
  {
    if |order| > 0 {
      var init, k := order[..|order| - 1], order[|order| - 1];
      LastStep(leads, order);
      CategoryCountIsSize(leads, init, category);
      SetStep(KeysWithCategory(leads, category), Elems(init), k);
    }
  }

  lemma {:induction false} ChannelCountIsSize(leads: map<String, Lead>, order: seq<String>, channel: String)
    requires InMap(order, leads) && Distinct(order)
    ensures ChannelCount(leads, order, channel) == |KeysWithChannel(leads, channel) * Elems(order)|
  {
    if |order| > 0 {
      var init, k := order[..|order| - 1], order[|order| - 1];
      LastStep(leads, order);
      ChannelCountIsSize(leads, init, channel);
      SetStep(KeysWithChannel(leads, channel), Elems(init), k);
    }
  }

  /** The four category counters count their categories, and together
      count no more than the visited leads. */
  lemma {:induction false} TalliedCategories(leads: map<String, Lead>, order: seq<String>, total: nat)
    requires InMap(order, leads)
    ensures var s := Tallied(leads, order, total);
      s.hot == CategoryCount(leads, order, "hot") && s.warm == CategoryCount(leads, order, "warm") &&
      s.cold == CategoryCount(leads, order, "cold") && s.discarded == CategoryCount(leads, order, "discarded") &&
      s.hot + s.warm + s.cold + s.discarded <= |order|
  {
    if |order| > 0 {
      TalliedCategories(leads, order[..|order| - 1], total);
    }
  }

  /** Each channel counter counts its channel. */
  lemma {:induction false} TalliedChannels(leads: map<String, Lead>, order: seq<String>, total: nat)
    requires InMap(order, leads)
    ensures var m := Tallied(leads, order, total).byChannel;
      forall ch :: Get(m, ch) == ChannelCount(leads, order, ch)
  {
    if |order| > 0 {
      TalliedChannels(leads, order[..|order| - 1], total);
    }
  }

  /** A channel has a counter exactly when the loop has met it. */
  lemma {:induction false} TalliedChannelSeen(leads: map<String, Lead>, order: seq<String>, total: nat, ch: String)
    requires InMap(order, leads)
    ensures ch in Tallied(leads, order, total).byChannel <==> ch in ChannelsSeen(leads, order)
  {
    if |order| > 0 {
      TalliedChannelSeen(leads, order[..|order| - 1], total, ch);
    }
  }

  /** Every visited lead's channel has a counter. */
  lemma {:induction false} TalliedCovers(leads: map<String, Lead>, order: seq<String>, total: nat)
    requires InMap(order, leads)
    ensures forall i :: 0 <= i < |order| ==> leads[order[i]].channel in Tallied(leads, order, total).byChannel
  {
    if |order| > 0 {
      var init := order[..|order| - 1];
      TalliedCovers(leads, init, total);
      var m := Tallied(leads, order, total).byChannel;
      forall i | 0 <= i < |order|
        ensures leads[order[i]].channel in m
      {
        if i < |init| {
          assert order[i] == init[i];
        }
      }
    }
  }

  /** The channel counters sum to the number of visited leads. */
  lemma {:induction false} TalliedSum(leads: map<String, Lead>, order: seq<String>, total: nat)
    requires InMap(order, leads)
    ensures Distinct(ChannelsSeen(leads, order))
    ensures SumAt(Tallied(leads, order, total).byChannel, ChannelsSeen(leads, order)) == |order|
  {
    if |order| > 0 {
      var init := order[..|order| - 1];
      TalliedSum(leads, init, total);
      var m := Tallied(leads, init, total).byChannel;
      var cs := ChannelsSeen(leads, init);
      var ch := leads[order[|order| - 1]].channel;
      TalliedChannelSeen(leads, init, total, ch);
      assert Tallied(leads, order, total).byChannel == m[ch := Get(m, ch) + 1];
      if ch in cs {
        assert ChannelsSeen(leads, order) == cs;
        SumBump(m, cs, ch);
      } else {
        var cs' := cs + [ch];
        assert ChannelsSeen(leads, order) == cs';
        SumAgree(m, m[ch := Get(m, ch) + 1], cs);
        assert cs'[..|cs'| - 1] == cs;
        assert SumAt(m[ch := Get(m, ch) + 1], cs') == SumAt(m, cs) + Get(m, ch) + 1;
        DistinctAppend(cs, ch);
      }
    }
  }

  /** After a full visit the counters describe the whole map. */
  lemma TalliedAll(leads: map<String, Lead>, order: seq<String>)
    requires EnumeratesKeys(order, leads)
    ensures var s := Tallied(leads, order, |leads|);
      s.hot == |KeysWithCategory(leads, "hot")| && s.warm == |KeysWithCategory(leads, "warm")| &&
      s.cold == |KeysWithCategory(leads, "cold")| && s.discarded == |KeysWithCategory(leads, "discarded")| &&
      s.hot + s.warm + s.cold + s.discarded <= |leads|
    ensures var m := Tallied(leads, order, |leads|).byChannel;
      forall ch :: ch in m ==> m[ch] == |KeysWithChannel(leads, ch)|
  {
    assert Elems(order) == leads.Keys;
    DistinctSize(order);
    TalliedCategories(leads, order, |leads|);
    CategoryCountIsSize(leads, order, "hot");
    CategoryCountIsSize(leads, order, "warm");
    CategoryCountIsSize(leads, order, "cold");
    CategoryCountIsSize(leads, order, "discarded");
    assert KeysWithCategory(leads, "hot") * leads.Keys == KeysWithCategory(leads, "hot");
    assert KeysWithCategory(leads, "warm") * leads.Keys == KeysWithCategory(leads, "warm");
    assert KeysWithCategory(leads, "cold") * leads.Keys == KeysWithCategory(leads, "cold");
    assert KeysWithCategory(leads, "discarded") * leads.Keys == KeysWithCategory(leads, "discarded");
    TalliedChannels(leads, order, |leads|);
    var m := Tallied(leads, order, |leads|).byChannel;
    forall ch | ch in m
      ensures m[ch] == |KeysWithChannel(leads, ch)|
    {
      assert Get(m, ch) == m[ch];
      ChannelCountIsSize(leads, order, ch);
      assert KeysWithChannel(leads, ch) * leads.Keys == KeysWithChannel(leads, ch);
    }
  }

  lemma DistinctAppend(s: seq<String>, x: String)
    requires Distinct(s) && x !in s
    ensures Distinct(s + [x])
  {
  }

  /** A list of distinct keys is as long as the set of its keys. */
  lemma {:induction false} DistinctSize(order: seq<String>)
    requires Distinct(order)
    ensures |Elems(order)| == |order|
  {
    if |order| > 0 {
      var init := order[..|order| - 1];
      DistinctSize(init);
      assert Elems(order) == Elems(init) + {order[|order| - 1]};
      assert order[|order| - 1] !in Elems(init);
    }
  }

  /** The loop of `GetLeadsStats`. */
  method CountLeads(leads: map<String, Lead>, order: seq<String>) returns (stats: LeadStats)
    requires InMap(order, leads)
    ensures stats == Tallied(leads, order, |leads|)
  {
    stats := LeadStats(|leads|, 0, 0, 0, 0, map[]);
    var i := 0;
    while i < |order|
      invariant 0 <= i <= |order|
      invariant stats == Tallied(leads, order[..i], |leads|)
    {
      assert order[..i + 1][..i] == order[..i];
      var lead := leads[order[i]];
      stats := CountCategory(stats, lead.category);
      stats := stats.(byChannel := stats.byChannel[lead.channel := Get(stats.byChannel, lead.channel) + 1]);
      i := i + 1;
    }
    assert order[..|order|] == order;
  }

  /** The `switch` on the category. */
  method CountCategory(acc: LeadStats, category: String) returns (r: LeadStats)
    ensures r == CategoryBumped(acc, category)
  {
    r := acc;
    if category == "hot" {
      r := r.(hot := r.hot + 1);
    } else if category == "warm" {
      r := r.(warm := r.warm + 1);
    } else if category == "cold" {
      r := r.(cold := r.cold + 1);
    } else if category == "discarded" {
      r := r.(discarded := r.discarded + 1);
    }
  }

  /** The counters with the one for `category` raised, if it has one. */
  function CategoryBumped(acc: LeadStats, category: String): (r: LeadStats)
    ensures r.total == acc.total && r.byChannel == acc.byChannel
    ensures r.hot == acc.hot + (if category == "hot" then 1 else 0)
    ensures r.warm == acc.warm + (if category == "warm" then 1 else 0)
    ensures r.cold == acc.cold + (if category == "cold" then 1 else 0)
    ensures r.discarded == acc.discarded + (if category == "discarded" then 1 else 0)
  {
    if category == "hot" then acc.(hot := acc.hot + 1)
    else if category == "warm" then acc.(warm := acc.warm + 1)
    else if category == "cold" then acc.(cold := acc.cold + 1)
    else if category == "discarded" then acc.(discarded := acc.discarded + 1)
    else acc
  }
}
