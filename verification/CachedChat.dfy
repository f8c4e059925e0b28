/** The cached path of a plain request: what a hit can be, over every run of requests. */
module CachedChat {
  import opened Wrappers
  import opened Cache
  import opened Handler
  import opened Rotation

  /**
   One request as the handler meets it. `refusal` is the status of an early refusal: no token, a body that is
   empty or cannot be parsed, a model that is not allowed, no messages. `answer` is the router's response, if it
   comes to a call. The clock is read once for the lookup and twice for a write.
   */
  datatype Turn = Turn(
    entry: Protocol, tokenId: int, body: string, refusal: Option<int>, stream: bool,
    answer: Option<Response>, getAt: int, setAt: int, setLater: int)

  /**
   `present` serialises a response for a protocol: none if that fails, else the response as the serialiser leaves
   it, a missing id filled in.
   */
  datatype Setting = Setting(cfg: Config, hash: string -> string, present: (Protocol, Response) -> Option<Response>)

  datatype Reply = Refusal(status: int) | Streaming | Hit(resp: Response) | Fresh(resp: Response) | Failure

  function KeyOf(s: Setting, t: Turn): string {
    Key(s.hash, t.tokenId, t.body)
  }

  /** handleNonStream: only a response that could be sent is cached. */
  function AfterMiss(s: Setting, items: Items, t: Turn): (Items, Reply) {
    if t.answer.None? then (items, Failure) else
    match s.present(t.entry, t.answer.value)
    case None => (items, Failure)
    case Some(r) =>
      (if s.cfg.enabled then AfterSet(s.cfg, items, KeyOf(s, t), Some(r), t.setAt, t.setLater) else items, Fresh(r))
  }

  function AfterTurn(s: Setting, items: Items, t: Turn): (Items, Reply) {
    if t.refusal.Some? then (items, Refusal(t.refusal.value)) else
    if t.stream then (items, Streaming) else
    if !s.cfg.enabled then AfterMiss(s, items, t) else
    var (kept, found) := AfterGet(s.cfg, items, KeyOf(s, t), t.getAt);
    if found.Some? && s.present(t.entry, found.value).Some? then (kept, Hit(s.present(t.entry, found.value).value))
    else AfterMiss(s, kept, t)
  }

  function AfterTurns(s: Setting, items: Items, turns: seq<Turn>): (Items, seq<Reply>) {
    if |turns| == 0 then (items, []) else
    var (before, replies) := AfterTurns(s, items, turns[..|turns| - 1]);
    var (after, reply) := AfterTurn(s, before, turns[|turns| - 1]);
    (after, replies + [reply])
  }

  class Server {
    const setting: Setting
    const cache: Manager

    constructor (setting: Setting, cache: Manager)
      requires cache.cfg == setting.cfg
      ensures this.setting == setting && this.cache == cache
    {
      this.setting, this.cache := setting, cache;
    }

    method Handle(t: Turn) returns (reply: Reply)
      requires cache.cfg == setting.cfg
      modifies cache
      ensures (cache.items, reply) == AfterTurn(setting, old(cache.items), t)
    {
      if t.refusal.Some? {
        return Refusal(t.refusal.value);
      }
      if t.stream {
        return Streaming;
      }
      var cacheKey := "";
      if cache.cfg.enabled {
        cacheKey := KeyOf(setting, t);
        var found := cache.Get(cacheKey, t.getAt);
        if found.Some? {
          var out := setting.present(t.entry, found.value);
          if out.Some? {
            return Hit(out.value);
          }
        }
      }
      reply := HandleNonStream(t, cacheKey);
    }

    method HandleNonStream(t: Turn, cacheKey: string) returns (reply: Reply)
      requires cache.cfg == setting.cfg && (setting.cfg.enabled ==> cacheKey == KeyOf(setting, t))
      modifies cache
      ensures (cache.items, reply) == AfterMiss(setting, old(cache.items), t)
    {
      if t.answer.None? {
        return Failure;
      }
      var out := setting.present(t.entry, t.answer.value);
      if out.None? {
        return Failure;
      }
      if cache.cfg.enabled {
        cache.Set(cacheKey, out, t.setAt, t.setLater);
      }
      reply := Fresh(out.value);
    }
  }

  // ---------- One turn ----------

  /** The answer that the cache holds for a turn: not expired, readable, and of use to its protocol. */
  function Cached(s: Setting, items: Items, t: Turn): Option<Response> {
    var key := Key(s.hash, t.tokenId, t.body);
    if !s.cfg.enabled || key !in items || items[key].exp < t.getAt then None else
    match s.cfg.json.unmarshal(items[key].data)
    case None => None
    case Some(resp) => s.present(t.entry, resp)
  }

  function Answered(s: Setting, t: Turn): Option<Response> {
    match t.answer case None => None case Some(resp) => s.present(t.entry, resp)
  }

  /**
   Refused and streamed requests neither read nor change the cache. Any other is a hit exactly when the cache holds an
   answer for its token and body, which leaves the cache alone; otherwise the router's answer is given, and entries for
   other tokens and bodies are touched only by dropping expired ones to make room.
   */
  lemma TurnMeaning(s: Setting, items: Items, t: Turn)
    ensures var (after, reply) := AfterTurn(s, items, t);
      var key := Key(s.hash, t.tokenId, t.body);
      if t.refusal.Some? then reply == Refusal(t.refusal.value) && after == items
      else if t.stream then reply == Streaming && after == items
      else if Cached(s, items, t).Some? then reply == Hit(Cached(s, items, t).value) && after == items
      else
        && reply == (if Answered(s, t).Some? then Fresh(Answered(s, t).value) else Failure)
        && (!s.cfg.enabled ==> after == items)
        && (forall k :: k in after && k != key ==> k in items && after[k] == items[k])
        && (forall k :: k in items && k != key && k !in after ==>
              reply.Fresh? && items[k].exp < t.setAt && |items| >= s.cfg.max)
        && (reply.Failure? && key in after ==> key in items && after[key] == items[key])
        && (reply.Fresh? && s.cfg.enabled && |items| < s.cfg.max && s.cfg.json.marshal(reply.resp).Some? ==>
              key in after && after[key] == Entry(s.cfg.json.marshal(reply.resp).value, t.setLater + s.cfg.ttl))
  {
    hide Key;
    if t.refusal.None? && !t.stream && Cached(s, items, t).None? {
      var kept := if s.cfg.enabled then AfterGet(s.cfg, items, KeyOf(s, t), t.getAt).0 else items;
      if s.cfg.enabled {
        LookupMisses(s, items, t);
      }
      assert AfterTurn(s, items, t) == AfterMiss(s, kept, t);
      hide AfterTurn, AfterGet;
      FewerEntries(kept, items);
    }
  }

  lemma FewerEntries(a: Items, b: Items)
    requires a.Keys <= b.Keys
    ensures |a| <= |b|
  {
    SubsetSize(a.Keys, b.Keys);
  }

  lemma LookupMisses(s: Setting, items: Items, t: Turn)
    requires s.cfg.enabled
    ensures var (kept, _) := AfterGet(s.cfg, items, KeyOf(s, t), t.getAt);
      && kept.Keys <= items.Keys
      && forall k :: k in items && k != KeyOf(s, t) ==> k in kept && kept[k] == items[k]
  {
  }

  // ---------- Where entries come from ----------

  /** The entry was written by turn j, which answered afresh. */
  ghost predicate WrittenBy(s: Setting, turns: seq<Turn>, replies: seq<Reply>, key: string, e: Entry, j: nat) {
    && j < |turns| && j < |replies| && replies[j].Fresh?
    && key == KeyOf(s, turns[j]) && e.exp == turns[j].setLater + s.cfg.ttl
    && s.cfg.json.marshal(replies[j].resp) == Some(e.data)
  }

  ghost predicate Grounded(s: Setting, turns: seq<Turn>, replies: seq<Reply>, items: Items) {
    forall k :: k in items ==> exists j: nat :: WrittenBy(s, turns, replies, k, items[k], j)
  }

  /** A hit answers with what an earlier turn for the same token and body produced, at most ttl ago. */
  ghost predicate ServedBy(s: Setting, turns: seq<Turn>, replies: seq<Reply>, i: nat, j: nat)
    requires i < |turns| && i < |replies|
  {
    && j < i && replies[j].Fresh? && replies[i].Hit?
    && turns[j].tokenId == turns[i].tokenId && turns[j].body == turns[i].body
    && turns[i].getAt - turns[j].setLater <= s.cfg.ttl
    && s.present(turns[i].entry, replies[j].resp) == Some(replies[i].resp)
  }

  ghost predicate HitsServed(s: Setting, turns: seq<Turn>, replies: seq<Reply>) {
    |turns| == |replies| &&
    forall i :: 0 <= i < |turns| && replies[i].Hit? ==> exists j: nat :: ServedBy(s, turns, replies, i, j)
  }

  lemma GroundedMore(s: Setting, turns: seq<Turn>, replies: seq<Reply>, items: Items, t: Turn, reply: Reply)
    requires Grounded(s, turns, replies, items) && |turns| == |replies|
    ensures Grounded(s, turns + [t], replies + [reply], items)
  {
    forall k | k in items
      ensures exists j: nat :: WrittenBy(s, turns + [t], replies + [reply], k, items[k], j)
    {
      var j: nat :| WrittenBy(s, turns, replies, k, items[k], j);
      assert WrittenBy(s, turns + [t], replies + [reply], k, items[k], j);
    }
  }

  lemma GetKeeps(cfg: Config, items: Items, key: string, now: int)
    ensures var after := AfterGet(cfg, items, key, now).0;
      forall k :: k in after ==> k in items && after[k] == items[k]
  {
  }

  lemma SetKeeps(cfg: Config, items: Items, key: string, resp: Response, now: int, later: int)
    ensures var after := AfterSet(cfg, items, key, Some(resp), now, later);
      forall k :: k in after ==>
        (k in items && after[k] == items[k])
        || (k == key && after[k].exp == later + cfg.ttl && cfg.json.marshal(resp) == Some(after[k].data))
  {
  }

  /** What a turn leaves in the cache was there before or is its own fresh answer. */
  ghost predicate Keeps(s: Setting, items: Items, t: Turn, after: Items, reply: Reply) {
    forall k :: k in after ==>
      (k in items && after[k] == items[k])
      || (reply.Fresh? && k == KeyOf(s, t) && after[k].exp == t.setLater + s.cfg.ttl
          && s.cfg.json.marshal(reply.resp) == Some(after[k].data))
  }

  lemma MissKeeps(s: Setting, items: Items, t: Turn)
    ensures var (after, reply) := AfterMiss(s, items, t); Keeps(s, items, t, after, reply)
  {
    hide AfterSet, KeyOf;
    if t.answer.Some? && s.present(t.entry, t.answer.value).Some? {
      SetKeeps(s.cfg, items, KeyOf(s, t), s.present(t.entry, t.answer.value).value, t.setAt, t.setLater);
    }
  }

  lemma TurnKeeps(s: Setting, items: Items, t: Turn)
    ensures var (after, reply) := AfterTurn(s, items, t); Keeps(s, items, t, after, reply)
  {
    hide AfterGet, AfterMiss, KeyOf;
    GetKeeps(s.cfg, items, KeyOf(s, t), t.getAt);
    MissKeeps(s, items, t);
    MissKeeps(s, AfterGet(s.cfg, items, KeyOf(s, t), t.getAt).0, t);
  }

  lemma NewWritten(s: Setting, turns: seq<Turn>, replies: seq<Reply>, t: Turn, reply: Reply, key: string, e: Entry)
    requires |turns| == |replies| && reply.Fresh? && key == KeyOf(s, t) && e.exp == t.setLater + s.cfg.ttl
    requires s.cfg.json.marshal(reply.resp) == Some(e.data)
    ensures WrittenBy(s, turns + [t], replies + [reply], key, e, |turns|)
  {
  }

  lemma TurnGrounded(s: Setting, turns: seq<Turn>, replies: seq<Reply>, items: Items, t: Turn)
    requires Grounded(s, turns, replies, items) && |turns| == |replies|
    ensures var (after, reply) := AfterTurn(s, items, t); Grounded(s, turns + [t], replies + [reply], after)
  {
    var (after, reply) := AfterTurn(s, items, t);
    GroundedMore(s, turns, replies, items, t, reply);
    TurnKeeps(s, items, t);
    hide AfterTurn, KeyOf, WrittenBy;
    forall k | k in after
      ensures exists j: nat :: WrittenBy(s, turns + [t], replies + [reply], k, after[k], j)
    {
      if k in items && after[k] == items[k] {
        var j: nat :| WrittenBy(s, turns + [t], replies + [reply], k, items[k], j);
      } else {
        NewWritten(s, turns, replies, t, reply, k, after[k]);
      }
    }
  }

  /** Where the answer of a hit comes from. */
  lemma HitSource(s: Setting, items: Items, t: Turn)
    requires AfterTurn(s, items, t).1.Hit?
    ensures var key := KeyOf(s, t);
      && key in items && t.getAt <= items[key].exp && s.cfg.json.unmarshal(items[key].data).Some?
      && s.present(t.entry, s.cfg.json.unmarshal(items[key].data).value) == Some(AfterTurn(s, items, t).1.resp)
  {
  }

  lemma HitServed(s: Setting, turns: seq<Turn>, replies: seq<Reply>, items: Items, t: Turn)
    requires s.cfg.json.Valid() && Injective(s.hash)
    requires Grounded(s, turns, replies, items) && |turns| == |replies|
    requires AfterTurn(s, items, t).1.Hit?
    ensures exists j: nat :: ServedBy(s, turns + [t], replies + [AfterTurn(s, items, t).1], |turns|, j)
  {
    HitSource(s, items, t);
    hide AfterTurn, Key;
    var key := KeyOf(s, t);
    var j: nat :| WrittenBy(s, turns, replies, key, items[key], j);
    KeyInjective(s.hash, turns[j].tokenId, turns[j].body, t.tokenId, t.body);
    assert ServedBy(s, turns + [t], replies + [AfterTurn(s, items, t).1], |turns|, j);
  }

  lemma ServedMore(s: Setting, turns: seq<Turn>, replies: seq<Reply>, t: Turn, reply: Reply)
    requires HitsServed(s, turns, replies)
    requires reply.Hit? ==> exists j: nat :: ServedBy(s, turns + [t], replies + [reply], |turns|, j)
    ensures HitsServed(s, turns + [t], replies + [reply])
  {
    var ts, rs := turns + [t], replies + [reply];
    forall i | 0 <= i < |turns| && rs[i].Hit?
      ensures exists j: nat :: ServedBy(s, ts, rs, i, j)
    {
      assert replies[i].Hit?;
      var j: nat :| ServedBy(s, turns, replies, i, j);
      assert ServedBy(s, ts, rs, i, j);
    }
  }

  lemma {:induction false} RunServed(s: Setting, turns: seq<Turn>)
    requires s.cfg.json.Valid() && Injective(s.hash)
    ensures var (items, replies) := AfterTurns(s, map[], turns);
      HitsServed(s, turns, replies) && Grounded(s, turns, replies, items)
  {
    if |turns| == 0 {
    } else {
      var init, t := turns[..|turns| - 1], turns[|turns| - 1];
      assert turns == init + [t];
      RunServed(s, init);
      var (items, replies) := AfterTurns(s, map[], init);
      hide AfterTurn, HitsServed, Grounded;
      var reply := AfterTurn(s, items, t).1;
      LengthsAgree(s, init);
      TurnGrounded(s, init, replies, items, t);
      if reply.Hit? {
        HitServed(s, init, replies, items, t);
      }
      ServedMore(s, init, replies, t, reply);
    }
  }

  lemma {:induction false} LengthsAgree(s: Setting, turns: seq<Turn>)
    ensures |AfterTurns(s, map[], turns).1| == |turns|
  {
    hide AfterTurn;
    if |turns| == 0 {
    } else {
      LengthsAgree(s, turns[..|turns| - 1]);
    }
  }

  /**
   In every run from an empty cache, each hit repeats a response the router produced earlier for the same token and
   the same body, at most ttl ago.
   */
  lemma HitsAreEarlierAnswers(s: Setting, turns: seq<Turn>)
    requires s.cfg.json.Valid() && Injective(s.hash)
    ensures HitsServed(s, turns, AfterTurns(s, map[], turns).1)
  {
    RunServed(s, turns);
  }

  lemma TurnsSnoc(s: Setting, turns: seq<Turn>, t: Turn)
    ensures var (before, replies) := AfterTurns(s, map[], turns);
      var (after, reply) := AfterTurn(s, before, t);
      AfterTurns(s, map[], turns + [t]) == (after, replies + [reply])
  {
    assert (turns + [t])[..|turns|] == turns;
  }

  /** A turn that reaches the cache. */
  predicate Plain(t: Turn) {
    t.refusal.None? && !t.stream
  }

  /**
   The protocol is not part of the key: after a fresh answer on an empty cache, a request with the same token and body
   is a hit, through whatever protocol, exactly when it comes within ttl and its protocol can present the answer.
   */
  lemma ProtocolsShareEntries(s: Setting, a: Turn, b: Turn, r: Response)
    requires s.cfg.json.Valid() && s.cfg.enabled && s.cfg.max > 0
    requires Plain(a) && Plain(b) && a.tokenId == b.tokenId && a.body == b.body
    requires a.answer.Some? && s.present(a.entry, a.answer.value) == Some(r) && s.cfg.json.marshal(r).Some?
    ensures var replies := AfterTurns(s, map[], [a, b]).1;
      && |replies| == 2 && replies[0] == Fresh(r)
      && (replies[1].Hit? <==> b.getAt - a.setLater <= s.cfg.ttl && s.present(b.entry, r).Some?)
      && (replies[1].Hit? ==> s.present(b.entry, r) == Some(replies[1].resp))
  {
    var items := AfterTurn(s, map[], a).0;
    assert AfterTurn(s, map[], a) == (map[KeyOf(s, a) := items[KeyOf(s, a)]], Fresh(r));
    SecondTurn(s, items, b, r, a.setLater);
    hide AfterTurn;
    TurnsSnoc(s, [], a);
    TurnsSnoc(s, [a], b);
    assert [] + [a] == [a] && [a] + [b] == [a, b];
  }

  lemma SecondTurn(s: Setting, items: Items, b: Turn, r: Response, at: int)
    requires s.cfg.json.Valid() && s.cfg.enabled && Plain(b) && s.cfg.json.marshal(r).Some?
    requires KeyOf(s, b) in items && items[KeyOf(s, b)] == Entry(s.cfg.json.marshal(r).value, at + s.cfg.ttl)
    ensures var reply := AfterTurn(s, items, b).1;
      && (reply.Hit? <==> b.getAt - at <= s.cfg.ttl && s.present(b.entry, r).Some?)
      && (reply.Hit? ==> s.present(b.entry, r) == Some(reply.resp))
  {
    hide AfterSet, Key;
  }
}
