/**
 Key cooldown over a whole request, and the budget under which a healthy channel is certain to be reached.
 */
module Liveness {
  import opened Wrappers
  import opened Rotation
  import opened Failover
  import K = Keys

  /** On cooldown up to the deadline at least, and so not ready at any moment up to it. */
  predicate Cooling(k: K.ChannelKey, deadline: int) {
    k.cooldownUntil.Some? && k.cooldownUntil.value >= deadline
  }

  /**
   The cooldown outlasts the request: every selection falls between start and deadline, every cooldown write
   succeeds and reaches the deadline.
   */
  ghost predicate Timely(w: World, cooldown: int, start: int, deadline: int) {
    forall n: nat :: n < 4 ==>
      var t := w.turn(n);
      start <= t.draw.now <= deadline && deadline <= t.markAt + cooldown && t.markOk
  }

  ghost predicate Resting(table: seq<K.ChannelKey>, key: int, deadline: int) {
    forall i :: 0 <= i < |table| && table[i].id == key ==> Cooling(table[i], deadline)
  }

  /** A row with this key and channel is not on cooldown up to the deadline. */
  ghost predicate Fresh(table: seq<K.ChannelKey>, channel: int, key: int, deadline: int) {
    exists i :: 0 <= i < |table| && table[i].id == key && table[i].channel == channel && !Cooling(table[i], deadline)
  }

  // ---------- One attempt ----------

  /** A picked key was not on cooldown up to the deadline. */
  lemma PickedIsFresh(p: K.Pool, channel: int, balance: string, d: K.Draw, deadline: int)
    requires d.now <= deadline
    ensures var (q, s) := K.AfterSelect(p, channel, balance, d);
      && q.table == p.table && q.cooldown == p.cooldown
      && (s.Picked? ==> Fresh(p.table, channel, s.key, deadline))
  {
    K.SelectionIsReady(p, channel, balance, d);
    var s := K.AfterSelect(p, channel, balance, d).1;
    if s.Picked? {
      var k :| k in p.table && k.id == s.key && k.channel == channel && k.usable && K.Ready(k, d.now);
      var i :| 0 <= i < |p.table| && p.table[i] == k;
      assert !Cooling(p.table[i], deadline);
    }
  }

  lemma CooledRests(table: seq<K.ChannelKey>, key: int, until: int, deadline: int)
    requires until >= deadline
    ensures Resting(K.Cooled(table, key, until), key, deadline)
  {
  }

  /** What an attempt leaves behind in the table. */
  lemma AttemptEffect(plan: Plan, w: World, pos: nat, n: nat, pool: K.Pool, start: int, deadline: int)
    requires Sound(plan) && pos < |Sequence(plan)| && n < 4 && Timely(w, pool.cooldown, start, deadline)
    ensures var (p, a) := Try(plan, w, pos, n, pool);
      var q := Settle(w, n, p, a);
      && a.route < |plan.routes| && q.cooldown == pool.cooldown
      && q.table == (if After(a) == NextKey
                     then K.Cooled(pool.table, a.selection.key, w.turn(n).markAt + pool.cooldown) else pool.table)
      && (a.selection.Picked? ==> Fresh(pool.table, plan.routes[a.route].channel, a.selection.key, deadline))
      && (After(a) == NextKey ==> a.selection.Picked? && Resting(q.table, a.selection.key, deadline))
  {
    var (p, a) := Try(plan, w, pos, n, pool);
    var route := plan.routes[a.route];
    PickedIsFresh(pool, route.channel, route.balance, w.turn(n).draw, deadline);
    if After(a) == NextKey {
      CooledRests(pool.table, a.selection.key, w.turn(n).markAt + pool.cooldown, deadline);
    }
  }

  lemma RestingStays(table: seq<K.ChannelKey>, key: int, deadline: int, other: int, until: int)
    requires Resting(table, key, deadline) && until >= deadline
    ensures Resting(K.Cooled(table, other, until), key, deadline)
  {
  }

  // ---------- A key is not used again after a 429 or a 401 ----------

  ghost predicate Avoids(attempts: seq<Attempt>, key: int) {
    forall i :: 0 <= i < |attempts| ==> attempts[i].selection != K.Picked(key)
  }

  lemma AvoidsBefore(a: Attempt, rest: seq<Attempt>, key: int)
    requires Avoids(rest, key) && a.selection != K.Picked(key)
    ensures Avoids([a] + rest, key)
  {
    var all := [a] + rest;
    assert forall i :: 0 < i < |all| ==> all[i] == rest[i - 1];
  }

  /** Attempts from a pool in which a key is resting never pick that key. */
  lemma {:induction false} RestingNotPicked(
    plan: Plan, w: World, pos: nat, n: nat, pool: K.Pool, last: Ending, start: int, deadline: int, key: int)
    requires Sound(plan) && Timely(w, pool.cooldown, start, deadline) && Resting(pool.table, key, deadline)
    ensures Avoids(ChatFrom(plan, w, pos, n, pool, last).attempts, key)
    decreases MaxAttempts(|plan.routes|) - n
  {
    hide Try, Settle, ChatFrom;
    if pos < |Sequence(plan)| && n < MaxAttempts(|plan.routes|) {
      ChatStep(plan, w, pos, n, pool, last);
      AttemptEffect(plan, w, pos, n, pool, start, deadline);
      var (p, a) := Try(plan, w, pos, n, pool);
      var q := Settle(w, n, p, a);
      assert a.selection != K.Picked(key);
      if After(a) == NextKey {
        RestingStays(pool.table, key, deadline, a.selection.key, w.turn(n).markAt + pool.cooldown);
        RestingNotPicked(plan, w, pos, n + 1, q, EndingOf(plan, a), start, deadline, key);
        AvoidsBefore(a, ChatFrom(plan, w, pos, n + 1, q, EndingOf(plan, a)).attempts, key);
      } else if After(a) == NextChannel {
        RestingNotPicked(plan, w, pos + 1, n + 1, q, EndingOf(plan, a), start, deadline, key);
        AvoidsBefore(a, ChatFrom(plan, w, pos + 1, n + 1, q, EndingOf(plan, a)).attempts, key);
      }
    } else {
      ChatOver(plan, w, pos, n, pool, last);
    }
  }

  /** The keys that were rate limited, in order. */
  function LimitedKeys(attempts: seq<Attempt>): seq<int> {
    if |attempts| == 0 then [] else
    (if After(attempts[0]) == NextKey && attempts[0].selection.Picked? then [attempts[0].selection.key] else [])
    + LimitedKeys(attempts[1..])
  }

  function Ids(table: seq<K.ChannelKey>): set<int> {
    set k | k in table :: k.id
  }

  /** No key appears again, as a selection or as a failure, after it was rate limited. */
  ghost predicate NoReuse(attempts: seq<Attempt>) {
    forall i, j :: 0 <= i < j < |attempts| && After(attempts[i]) == NextKey ==>
      attempts[j].selection != attempts[i].selection
  }

  lemma {:induction false} RunWithoutReuse(
    plan: Plan, w: World, pos: nat, n: nat, pool: K.Pool, last: Ending, start: int, deadline: int)
    requires Sound(plan) && Timely(w, pool.cooldown, start, deadline)
    ensures NoReuse(ChatFrom(plan, w, pos, n, pool, last).attempts)
    decreases MaxAttempts(|plan.routes|) - n
  {
    hide Try, Settle, ChatFrom;
    if pos < |Sequence(plan)| && n < MaxAttempts(|plan.routes|) {
      ChatStep(plan, w, pos, n, pool, last);
      AttemptEffect(plan, w, pos, n, pool, start, deadline);
      var (p, a) := Try(plan, w, pos, n, pool);
      var q := Settle(w, n, p, a);
      if After(a) == NextKey {
        RunWithoutReuse(plan, w, pos, n + 1, q, EndingOf(plan, a), start, deadline);
        RestingNotPicked(plan, w, pos, n + 1, q, EndingOf(plan, a), start, deadline, a.selection.key);
        ReuseBefore(a, ChatFrom(plan, w, pos, n + 1, q, EndingOf(plan, a)).attempts);
      } else if After(a) == NextChannel {
        RunWithoutReuse(plan, w, pos + 1, n + 1, q, EndingOf(plan, a), start, deadline);
        ReuseBefore(a, ChatFrom(plan, w, pos + 1, n + 1, q, EndingOf(plan, a)).attempts);
      }
    } else {
      ChatOver(plan, w, pos, n, pool, last);
    }
  }

  /** Every selected key is one of the table's. */
  ghost predicate Drawn(attempts: seq<Attempt>, ids: set<int>) {
    forall i :: 0 <= i < |attempts| && attempts[i].selection.Picked? ==> attempts[i].selection.key in ids
  }

  lemma DrawnBefore(a: Attempt, rest: seq<Attempt>, ids: set<int>)
    requires Drawn(rest, ids) && (a.selection.Picked? ==> a.selection.key in ids)
    ensures Drawn([a] + rest, ids)
  {
    var all := [a] + rest;
    assert forall i :: 0 < i < |all| ==> all[i] == rest[i - 1];
  }

  lemma {:induction false} RunDrawn(
    plan: Plan, w: World, pos: nat, n: nat, pool: K.Pool, last: Ending, start: int, deadline: int)
    requires Sound(plan) && Timely(w, pool.cooldown, start, deadline)
    ensures Drawn(ChatFrom(plan, w, pos, n, pool, last).attempts, Ids(pool.table))
    decreases MaxAttempts(|plan.routes|) - n
  {
    hide Try, Settle, ChatFrom;
    if pos < |Sequence(plan)| && n < MaxAttempts(|plan.routes|) {
      ChatStep(plan, w, pos, n, pool, last);
      AttemptEffect(plan, w, pos, n, pool, start, deadline);
      var (p, a) := Try(plan, w, pos, n, pool);
      var q := Settle(w, n, p, a);
      IdsKept(pool.table, q.table);
      if After(a) == NextKey {
        RunDrawn(plan, w, pos, n + 1, q, EndingOf(plan, a), start, deadline);
        DrawnBefore(a, ChatFrom(plan, w, pos, n + 1, q, EndingOf(plan, a)).attempts, Ids(pool.table));
      } else if After(a) == NextChannel {
        RunDrawn(plan, w, pos + 1, n + 1, q, EndingOf(plan, a), start, deadline);
        DrawnBefore(a, ChatFrom(plan, w, pos + 1, n + 1, q, EndingOf(plan, a)).attempts, Ids(pool.table));
      }
    } else {
      ChatOver(plan, w, pos, n, pool, last);
    }
  }

  lemma ReuseBefore(a: Attempt, rest: seq<Attempt>)
    requires NoReuse(rest)
    requires After(a) == NextKey ==> a.selection.Picked? && Avoids(rest, a.selection.key)
    ensures NoReuse([a] + rest)
  {
    var all := [a] + rest;
    assert forall i :: 0 < i < |all| ==> all[i] == rest[i - 1];
  }

  lemma IdsKept(table: seq<K.ChannelKey>, after: seq<K.ChannelKey>)
    requires |after| == |table| && forall i :: 0 <= i < |table| ==> after[i].id == table[i].id
    ensures Ids(after) == Ids(table)
  {
    forall id
      ensures id in Ids(after) <==> id in Ids(table)
    {
      if id in Ids(after) {
        var i :| 0 <= i < |after| && after[i].id == id;
        assert table[i] in table;
      }
      if id in Ids(table) {
        var i :| 0 <= i < |table| && table[i].id == id;
        assert after[i] in after;
      }
    }
  }

  lemma {:induction false} LimitedKeysOf(attempts: seq<Attempt>)
    requires NoReuse(attempts)
    ensures forall key :: key in LimitedKeys(attempts) ==>
      exists i :: 0 <= i < |attempts| && After(attempts[i]) == NextKey && attempts[i].selection == K.Picked(key)
    ensures forall i, j :: 0 <= i < j < |LimitedKeys(attempts)| ==> LimitedKeys(attempts)[i] != LimitedKeys(attempts)[j]
  {
    if |attempts| == 0 {
    } else {
      var a, rest := attempts[0], attempts[1..];
      assert NoReuse(rest) by {
        assert forall i :: 0 <= i < |rest| ==> rest[i] == attempts[i + 1];
      }
      LimitedKeysOf(rest);
      forall key | key in LimitedKeys(attempts)
        ensures exists i ::
          0 <= i < |attempts| && After(attempts[i]) == NextKey && attempts[i].selection == K.Picked(key)
      {
        if key in LimitedKeys(rest) {
          var i :| 0 <= i < |rest| && After(rest[i]) == NextKey && rest[i].selection == K.Picked(key);
          assert attempts[i + 1] == rest[i];
        } else {
          assert attempts[0].selection == K.Picked(key);
        }
      }
      if After(a) == NextKey && a.selection.Picked? {
        assert a.selection.key !in LimitedKeys(rest) by {
          assert forall i :: 0 <= i < |rest| ==> rest[i] == attempts[i + 1];
        }
      }
    }
  }

  lemma {:induction false} DistinctInSet(s: seq<int>, t: set<int>)
    requires forall i, j :: 0 <= i < j < |s| ==> s[i] != s[j]
    requires forall x :: x in s ==> x in t
    ensures |s| <= |t|
  {
    if |s| == 0 {
    } else {
      assert s[0] in s;
      assert forall x :: x in s[1..] ==> x in s;
      DistinctInSet(s[1..], t - {s[0]});
    }
  }

  /**
   When the cooldown outlasts the request, a key that answered 429 or 401 is not selected again in that run,
   so there are at most as many such answers as there are keys.
   */
  lemma CooldownHolds(plan: Plan, w: World, pool: K.Pool, start: int, deadline: int)
    requires Sound(plan) && Timely(w, pool.cooldown, start, deadline)
    ensures var attempts := Chat(plan, w, pool).attempts;
      NoReuse(attempts) && |LimitedKeys(attempts)| <= |Ids(pool.table)|
  {
    var attempts := Chat(plan, w, pool).attempts;
    RunWithoutReuse(plan, w, 0, 0, pool, NOT_FOUND, start, deadline);
    RunDrawn(plan, w, 0, 0, pool, NOT_FOUND, start, deadline);
    LimitedKeysOf(attempts);
    forall key | key in LimitedKeys(attempts)
      ensures key in Ids(pool.table)
    {
      var i :| 0 <= i < |attempts| && After(attempts[i]) == NextKey && attempts[i].selection == K.Picked(key);
    }
    DistinctInSet(LimitedKeys(attempts), Ids(pool.table));
  }

  /** The same of every streaming run, whatever its calls emit and the client refuses. */
  lemma StreamCooldownHolds(plan: Plan, w: World, sink: Sink, pool: K.Pool, start: int, deadline: int)
    requires Sound(plan) && Timely(w, pool.cooldown, start, deadline)
    ensures var attempts := ChatStream(plan, w, sink, pool).attempts;
      NoReuse(attempts) && |LimitedKeys(attempts)| <= |Ids(pool.table)|
  {
    var v := Muted(w, sink);
    StreamIsMuted(plan, w, sink, 0, 0, pool, NOT_FOUND);
    RunWithoutReuse(plan, v, 0, 0, pool, NOT_FOUND, start, deadline);
    RunDrawn(plan, v, 0, 0, pool, NOT_FOUND, start, deadline);
    hide ChatFrom, StreamFrom, Muted, Ids, LimitedKeys;
    var c, s := Chat(plan, v, pool), ChatStream(plan, w, sink, pool);
    FollowsWithoutReuse(plan, c, s, Ids(pool.table));
    LimitedKeysOf(s.attempts);
    forall key | key in LimitedKeys(s.attempts)
      ensures key in Ids(pool.table)
    {
      var i :| 0 <= i < |s.attempts| && After(s.attempts[i]) == NextKey && s.attempts[i].selection == K.Picked(key);
    }
    DistinctInSet(LimitedKeys(s.attempts), Ids(pool.table));
  }

  lemma FollowsWithoutReuse(plan: Plan, c: Run, s: StreamRun, ids: set<int>)
    requires Follows(plan, c, s) && NoReuse(c.attempts) && Drawn(c.attempts, ids)
    ensures NoReuse(s.attempts) && Drawn(s.attempts, ids)
  {
    if s.handed != [] {
      var m := |c.attempts| - 1;
      assert forall k :: 0 <= k < m ==> s.attempts[k] == s.attempts[..m][k] && c.attempts[k] == c.attempts[..m][k];
      assert forall k :: 0 <= k <= m ==> s.attempts[k].selection == c.attempts[k].selection;
    }
  }

  // ---------- The budget ----------

  /** The keys of a channel that can still be rate limited: in the given set and not yet on cooldown. */
  function Burnable(table: seq<K.ChannelKey>, channel: int, limited: set<int>, deadline: int): nat {
    if |table| == 0 then 0 else
    var k := table[|table| - 1];
    Burnable(table[..|table| - 1], channel, limited, deadline)
    + (if k.channel == channel && k.id in limited && !Cooling(k, deadline) then 1 else 0)
  }

  /** A cooldown never adds a burnable key and removes the one it is for. */
  lemma {:induction false} BurnableCooled(
    table: seq<K.ChannelKey>, channel: int, limited: set<int>, deadline: int, key: int, until: int)
    requires until >= deadline
    ensures var after := Burnable(K.Cooled(table, key, until), channel, limited, deadline);
      && after <= Burnable(table, channel, limited, deadline)
      && (key in limited && Fresh(table, channel, key, deadline) ==>
        after < Burnable(table, channel, limited, deadline))
  {
    if |table| == 0 {
    } else {
      var init := table[..|table| - 1];
      BurnableCooled(init, channel, limited, deadline, key, until);
      assert K.Cooled(table, key, until)[..|table| - 1] == K.Cooled(init, key, until);
      if Fresh(table, channel, key, deadline) {
        var i :| 0 <= i < |table| && table[i].id == key && table[i].channel == channel && !Cooling(table[i], deadline);
        if i < |table| - 1 {
          assert init[i] == table[i];
        }
      }
    }
  }

  /**
   The attempts that channels `pos` to `h` of the order can consume before `h` answers: their limited keys, and one
   more each before `h`.
   */
  function Cost(plan: Plan, table: seq<K.ChannelKey>, pos: nat, h: nat, limited: set<int>, deadline: int): nat
    requires Sound(plan) && pos <= h < |plan.order|
    decreases h - pos
  {
    var burn := Burnable(table, plan.routes[plan.order[pos]].channel, limited, deadline);
    if pos == h then burn else burn + 1 + Cost(plan, table, pos + 1, h, limited, deadline)
  }

  lemma {:induction false} CostCooled(
    plan: Plan, table: seq<K.ChannelKey>, pos: nat, h: nat, limited: set<int>, deadline: int, key: int, until: int)
    requires Sound(plan) && pos <= h < |plan.order| && until >= deadline
    ensures var after := Cost(plan, K.Cooled(table, key, until), pos, h, limited, deadline);
      && after <= Cost(plan, table, pos, h, limited, deadline)
      && (key in limited && Fresh(table, plan.routes[plan.order[pos]].channel, key, deadline) ==>
            after < Cost(plan, table, pos, h, limited, deadline))
    decreases h - pos
  {
    BurnableCooled(table, plan.routes[plan.order[pos]].channel, limited, deadline, key, until);
    if pos < h {
      CostCooled(plan, table, pos + 1, h, limited, deadline, key, until);
    }
  }

  /** What the channel in place j can answer to attempt number n with one of its own keys. */
  ghost predicate Answers(plan: Plan, w: World, rows: seq<K.ChannelKey>, n: nat, j: nat, k: K.ChannelKey, o: Outcome)
    requires Sound(plan) && j < |plan.order|
  {
    && j <= n < MaxAttempts(|plan.routes|)
    && k in rows && k.channel == plan.routes[plan.order[j]].channel
    && o == w.reply(n, plan.order[j], k.id).outcome
  }

  /**
   Before the healthy channel, every call fails, by rate limiting of one of the limited keys or as a channel
   failure. A channel of another type has no key at all.
   */
  ghost predicate EarlierFail(plan: Plan, w: World, rows: seq<K.ChannelKey>, h: nat, limited: set<int>)
    requires Sound(plan) && h < |plan.order|
  {
    && (forall j: nat :: j < h ==>
          Supported(plan.routes[plan.order[j]].channelType) || Keyless(rows, plan.routes[plan.order[j]].channel))
    && forall n: nat, j: nat, k, o :: j < h && Answers(plan, w, rows, n, j, k, o) ==>
         (k.id in limited && RateLimited(o)) || ChannelFailed(o)
  }

  ghost predicate Keyless(rows: seq<K.ChannelKey>, channel: int) {
    forall k :: k in rows ==> k.channel != channel
  }

  /** The healthy channel answers, unless it rate limits one of the limited keys. */
  ghost predicate Healthy(plan: Plan, w: World, rows: seq<K.ChannelKey>, h: nat, limited: set<int>)
    requires Sound(plan) && h < |plan.order|
  {
    && Supported(plan.routes[plan.order[h]].channelType)
    && forall n: nat, k, o :: Answers(plan, w, rows, n, h, k, o) ==> (k.id in limited && RateLimited(o)) || o.Success?
  }

  /** The same keys of the same channels, whatever their cooldowns. */
  ghost predicate SameKeys(rows: seq<K.ChannelKey>, table: seq<K.ChannelKey>) {
    && |rows| == |table|
    && forall i :: 0 <= i < |rows| ==> rows[i].id == table[i].id && rows[i].channel == table[i].channel
  }

  /** A picked key has a row of its channel. */
  lemma PickedRow(
    plan: Plan, w: World, rows: seq<K.ChannelKey>, pos: nat, n: nat, pool: K.Pool, start: int, deadline: int)
    returns (k: K.ChannelKey)
    requires Sound(plan) && pos < |plan.order| && pos <= n < MaxAttempts(|plan.routes|)
    requires Timely(w, pool.cooldown, start, deadline) && SameKeys(rows, pool.table)
    requires Try(plan, w, pos, n, pool).1.selection.Picked?
    ensures var a := Try(plan, w, pos, n, pool).1;
      a.route == plan.order[pos] && k.id == a.selection.key && k in rows
      && k.channel == plan.routes[plan.order[pos]].channel
      && (a.outcome.Some? ==> Answers(plan, w, rows, n, pos, k, a.outcome.value))
      && (Supported(plan.routes[plan.order[pos]].channelType) ==> a.outcome.Some?)
  {
    AttemptEffect(plan, w, pos, n, pool, start, deadline);
    var a := Try(plan, w, pos, n, pool).1;
    var i :| 0 <= i < |pool.table| && pool.table[i].id == a.selection.key
             && pool.table[i].channel == plan.routes[a.route].channel && !Cooling(pool.table[i], deadline);
    k := rows[i];
  }

  /**
   From attempt number `from` on the key table can be read; the channel has a key that is not limited and was ready
   from the start, and its keys decrypt.
   */
  ghost predicate Served(
    w: World, table: seq<K.ChannelKey>, channel: int, from: nat, limited: set<int>, start: int)
  {
    && (forall n: nat :: from <= n < 4 ==> w.turn(n).draw.readOk)
    && (forall k :: k in table && k.channel == channel ==> k.usable)
    && (exists k :: k in table && k.channel == channel && k.id !in limited && K.Ready(k, start))
  }

  lemma ServedStays(
    w: World, table: seq<K.ChannelKey>, channel: int, from: nat, limited: set<int>, start: int, key: int, until: int)
    requires Served(w, table, channel, from, limited, start) && key in limited
    ensures Served(w, K.Cooled(table, key, until), channel, from, limited, start)
  {
    var after := K.Cooled(table, key, until);
    var k :| k in table && k.channel == channel && k.id !in limited && K.Ready(k, start);
    var i :| 0 <= i < |table| && table[i] == k;
    assert after[i] == k && after[i] in after;
    forall r | r in after && r.channel == channel
      ensures r.usable
    {
      var j :| 0 <= j < |after| && after[j] == r;
      assert table[j] in table;
    }
  }

  /** At the healthy channel a key is always found. */
  lemma ServedPicks(
    w: World, pool: K.Pool, channel: int, balance: string, n: nat, from: nat, limited: set<int>, start: int)
    requires from <= n < 4 && Served(w, pool.table, channel, from, limited, start) && start <= w.turn(n).draw.now
    ensures K.AfterSelect(pool, channel, balance, w.turn(n).draw).1.Picked?
  {
    var d := w.turn(n).draw;
    K.SelectionIsReady(pool, channel, balance, d);
    var keys := K.KeysOf(pool.table, channel);
    var avail := K.Available(keys, d.now);
    var k :| k in pool.table && k.channel == channel && k.id !in limited && K.Ready(k, start);
    assert k in keys && k in avail;
    forall i | 0 <= i < |avail|
      ensures avail[i].usable
    {
      assert avail[i] in avail;
    }
  }

  /** What one attempt may do without exceeding the budget of the channels up to the healthy one. */
  ghost predicate InBudget(
    plan: Plan, w: World, pos: nat, n: nat, pool: K.Pool, a: Attempt, q: K.Pool, h: nat, limited: set<int>,
        deadline: int)
    requires Sound(plan) && pos <= h < |plan.order|
  {
    && q.cooldown == pool.cooldown && a.route < |plan.routes|
    && match After(a)
       case Stop =>
         && a.outcome.Some? && a.outcome.value.Success?
         && EndingOf(plan, a) == Ending(plan.routes[plan.order[h]].channel, None)
       case NextChannel => pos < h && q.table == pool.table
       case NextKey =>
         && a.selection.Picked? && a.selection.key in limited
         && q.table == K.Cooled(pool.table, a.selection.key, w.turn(n).markAt + pool.cooldown)
         && Cost(plan, q.table, pos, h, limited, deadline) < Cost(plan, pool.table, pos, h, limited, deadline)
  }

  lemma LimitedInBudget(
    plan: Plan, w: World, pos: nat, n: nat, pool: K.Pool, h: nat, limited: set<int>, start: int, deadline: int)
    requires Sound(plan) && pos <= h < |plan.order| && n < 4 && Timely(w, pool.cooldown, start, deadline)
    requires var a := Try(plan, w, pos, n, pool).1; After(a) == NextKey && a.selection.key in limited
    ensures var (p, a) := Try(plan, w, pos, n, pool);
      InBudget(plan, w, pos, n, pool, a, Settle(w, n, p, a), h, limited, deadline)
  {
    AttemptEffect(plan, w, pos, n, pool, start, deadline);
    var (p, a) := Try(plan, w, pos, n, pool);
    CostCooled(plan, pool.table, pos, h, limited, deadline, a.selection.key, w.turn(n).markAt + pool.cooldown);
  }

  lemma EarlierStep(
    plan: Plan, w: World, rows: seq<K.ChannelKey>, pos: nat, n: nat, pool: K.Pool, h: nat, limited: set<int>,
        start: int, deadline: int)
    requires Sound(plan) && pos < h < |plan.order| && pos <= n < MaxAttempts(|plan.routes|)
    requires Timely(w, pool.cooldown, start, deadline) && EarlierFail(plan, w, rows, h, limited)
    requires SameKeys(rows, pool.table)
    ensures var (p, a) := Try(plan, w, pos, n, pool);
      InBudget(plan, w, pos, n, pool, a, Settle(w, n, p, a), h, limited, deadline)
  {
    var (p, a) := Try(plan, w, pos, n, pool);
    assert a.route == plan.order[pos];
    AttemptEffect(plan, w, pos, n, pool, start, deadline);
    if a.selection.Picked? {
      var k := PickedRow(plan, w, rows, pos, n, pool, start, deadline);
      if RateLimited(a.outcome.value) {
        LimitedInBudget(plan, w, pos, n, pool, h, limited, start, deadline);
      }
    }
  }

  lemma HealthyStep(
    plan: Plan, w: World, rows: seq<K.ChannelKey>, n: nat, pool: K.Pool, h: nat, limited: set<int>, start: int,
        deadline: int)
    requires Sound(plan) && h < |plan.order| && h <= n < MaxAttempts(|plan.routes|)
    requires Timely(w, pool.cooldown, start, deadline) && Healthy(plan, w, rows, h, limited)
    requires Served(w, pool.table, plan.routes[plan.order[h]].channel, h, limited, start) && SameKeys(rows, pool.table)
    ensures var (p, a) := Try(plan, w, h, n, pool);
      InBudget(plan, w, h, n, pool, a, Settle(w, n, p, a), h, limited, deadline)
  {
    var (p, a) := Try(plan, w, h, n, pool);
    var route := plan.routes[plan.order[h]];
    assert a.route == plan.order[h];
    ServedPicks(w, pool, route.channel, route.balance, n, h, limited, start);
    AttemptEffect(plan, w, h, n, pool, start, deadline);
    var k := PickedRow(plan, w, rows, h, n, pool, start, deadline);
    if RateLimited(a.outcome.value) {
      LimitedInBudget(plan, w, h, n, pool, h, limited, start, deadline);
    }
  }

  /** The healthy channel lies ahead, and the attempts left suffice to get to its answer. */
  ghost predicate OnBudget(
    plan: Plan, w: World, rows: seq<K.ChannelKey>, pos: nat, n: nat, pool: K.Pool, h: nat, limited: set<int>,
        start: int, deadline: int)
    requires Sound(plan)
  {
    && pos <= h < |plan.order| && pos <= n
    && Timely(w, pool.cooldown, start, deadline) && SameKeys(rows, pool.table)
    && EarlierFail(plan, w, rows, h, limited) && Healthy(plan, w, rows, h, limited)
    && Served(w, pool.table, plan.routes[plan.order[h]].channel, h, limited, start)
    && n + Cost(plan, pool.table, pos, h, limited, deadline) < MaxAttempts(|plan.routes|)
  }

  lemma BudgetNext(
    plan: Plan, w: World, rows: seq<K.ChannelKey>, pos: nat, n: nat, pool: K.Pool, h: nat, limited: set<int>,
        start: int, deadline: int)
    requires Sound(plan) && OnBudget(plan, w, rows, pos, n, pool, h, limited, start, deadline)
    ensures pos < |Sequence(plan)| && n < MaxAttempts(|plan.routes|) && h < |plan.order|
    ensures var (p, a) := Try(plan, w, pos, n, pool);
      var q := Settle(w, n, p, a);
      a.route < |plan.routes| &&
      match After(a)
      case Stop => EndingOf(plan, a) == Ending(plan.routes[plan.order[h]].channel, None) && Answer(a).Some?
      case NextKey => OnBudget(plan, w, rows, pos, n + 1, q, h, limited, start, deadline)
      case NextChannel => OnBudget(plan, w, rows, pos + 1, n + 1, q, h, limited, start, deadline)
  {
    hide Try, Settle, Timely, EarlierFail, Healthy, Served;
    assert Timely(w, pool.cooldown, start, deadline);
    if pos < h {
      EarlierStep(plan, w, rows, pos, n, pool, h, limited, start, deadline);
    } else {
      HealthyStep(plan, w, rows, n, pool, h, limited, start, deadline);
    }
    var (p, a) := Try(plan, w, pos, n, pool);
    if After(a) == NextKey {
      ServedStays(w, pool.table, plan.routes[plan.order[h]].channel, h, limited, start,
                  a.selection.key, w.turn(n).markAt + pool.cooldown);
    }
  }

  lemma {:induction false} ReachesHealthy(
    plan: Plan, w: World, rows: seq<K.ChannelKey>, pos: nat, n: nat, pool: K.Pool, last: Ending, h: nat,
        limited: set<int>, start: int, deadline: int)
    requires Sound(plan) && OnBudget(plan, w, rows, pos, n, pool, h, limited, start, deadline)
    ensures var run := ChatFrom(plan, w, pos, n, pool, last);
      run.ending == Ending(plan.routes[plan.order[h]].channel, None) && run.response.Some?
    decreases MaxAttempts(|plan.routes|) - n
  {
    hide OnBudget, Try, Settle;
    BudgetNext(plan, w, rows, pos, n, pool, h, limited, start, deadline);
    ChatStep(plan, w, pos, n, pool, last);
    var (p, a) := Try(plan, w, pos, n, pool);
    var q := Settle(w, n, p, a);
    match After(a)
    case Stop =>
    case NextKey => ReachesHealthy(plan, w, rows, pos, n + 1, q, EndingOf(plan, a), h, limited, start, deadline);
    case NextChannel => ReachesHealthy(plan, w, rows, pos + 1, n + 1, q, EndingOf(plan, a), h, limited, start,
      deadline);
  }

  /**
   A healthy channel in the order answers, and is the one reported, whenever the attempts that earlier
   channels and its own limited keys can use up stay below min(2n, 4).
   */
  lemma FailoverLiveness(plan: Plan, w: World, pool: K.Pool, h: nat, limited: set<int>, start: int, deadline: int)
    requires Sound(plan) && h < |plan.order|
    requires Timely(w, pool.cooldown, start, deadline)
    requires EarlierFail(plan, w, pool.table, h, limited) && Healthy(plan, w, pool.table, h, limited)
    requires Served(w, pool.table, plan.routes[plan.order[h]].channel, h, limited, start)
    requires Cost(plan, pool.table, 0, h, limited, deadline) < MaxAttempts(|plan.routes|)
    ensures var run := Chat(plan, w, pool);
      run.ending == Ending(plan.routes[plan.order[h]].channel, None) && run.response.Some?
  {
    ReachesHealthy(plan, w, pool.table, 0, 0, pool, NOT_FOUND, h, limited, start, deadline);
  }

  /**
   The streaming loop reaches it too, given a client that takes every event and calls that fail before their first
   one.
   */
  lemma StreamLiveness(
    plan: Plan, w: World, sink: Sink, pool: K.Pool, h: nat, limited: set<int>, start: int, deadline: int)
    requires Sound(plan) && h < |plan.order|
    requires Timely(w, pool.cooldown, start, deadline)
    requires EarlierFail(plan, w, pool.table, h, limited) && Healthy(plan, w, pool.table, h, limited)
    requires Served(w, pool.table, plan.routes[plan.order[h]].channel, h, limited, start)
    requires Cost(plan, pool.table, 0, h, limited, deadline) < MaxAttempts(|plan.routes|)
    requires (forall events :: sink(events))
    requires forall i, r, k :: !w.reply(i, r, k).outcome.Success? ==> w.reply(i, r, k).events == []
    ensures ChatStream(plan, w, sink, pool).ending == Ending(plan.routes[plan.order[h]].channel, None)
  {
    FailoverLiveness(plan, w, pool, h, limited, start, deadline);
    SimulationOfChat(plan, w, sink, pool);
  }

  // ---------- The budget is not shared out ----------

  /** Each of these keys has a row of the channel that was ready from the start; rows can be read and decrypted. */
  ghost predicate Stocked(w: World, table: seq<K.ChannelKey>, channel: int, spare: set<int>, start: int) {
    && (forall n: nat :: n < 4 ==> w.turn(n).draw.readOk)
    && (forall k :: k in table && k.channel == channel ==> k.usable)
    && (forall id :: id in spare ==> exists k :: k in table && k.channel == channel && k.id == id && K.Ready(k, start))
  }

  lemma StockedStays(w: World, table: seq<K.ChannelKey>, channel: int, spare: set<int>, start: int, key: int,
      until: int)
    requires Stocked(w, table, channel, spare, start)
    ensures Stocked(w, K.Cooled(table, key, until), channel, spare - {key}, start)
  {
    forall id | id in spare - {key}
      ensures exists k :: k in K.Cooled(table, key, until) && k.channel == channel && k.id == id && K.Ready(k, start)
    {
      var k :| k in table && k.channel == channel && k.id == id && K.Ready(k, start);
      var i :| 0 <= i < |table| && table[i] == k;
      assert K.Cooled(table, key, until)[i] == k;
    }
    forall r | r in K.Cooled(table, key, until) && r.channel == channel
      ensures r.usable
    {
      var j :| 0 <= j < |table| && K.Cooled(table, key, until)[j] == r;
      assert table[j] in table;
    }
  }

  /** Every call to the leading channel is rate limited. */
  ghost predicate LeadLimited(plan: Plan, w: World)
    requires Sound(plan)
  {
    && Supported(plan.routes[plan.order[0]].channelType)
    && forall n: nat, key: int :: n < 4 ==> RateLimited(w.reply(n, plan.order[0], key).outcome)
  }

  /** Attempts that all stay at the head of the order. */
  ghost predicate StuckAtLead(attempts: seq<Attempt>) {
    forall i :: 0 <= i < |attempts| ==> attempts[i].position == 0 && After(attempts[i]) == NextKey
  }

  lemma LeadStep(plan: Plan, w: World, n: nat, pool: K.Pool, spare: set<int>, id: int, start: int, deadline: int)
    requires Sound(plan) && n < 4 && Timely(w, pool.cooldown, start, deadline) && LeadLimited(plan, w)
    requires id in spare && Stocked(w, pool.table, plan.routes[plan.order[0]].channel, spare, start)
    ensures var (p, a) := Try(plan, w, 0, n, pool);
      && a.position == 0 && a.route == plan.order[0] && After(a) == NextKey
      && EndingOf(plan, a).error.Some? && EndingOf(plan, a).error.value.Failed?
      && RateLimited(EndingOf(plan, a).error.value.outcome)
  {
    var route := plan.routes[plan.order[0]];
    ServedPicks(w, pool, route.channel, route.balance, n, 0, {}, start);
    var a := Try(plan, w, 0, n, pool).1;
    assert RateLimited(w.reply(n, plan.order[0], a.selection.key).outcome);
  }

  lemma {:induction false} StuckFrom(
    plan: Plan, w: World, n: nat, pool: K.Pool, last: Ending, spare: set<int>, start: int, deadline: int)
    requires Sound(plan) && n <= MaxAttempts(|plan.routes|) && LeadLimited(plan, w)
    requires Timely(w, pool.cooldown, start, deadline)
    requires Stocked(w, pool.table, plan.routes[plan.order[0]].channel, spare, start)
    requires n + |spare| >= MaxAttempts(|plan.routes|)
    ensures var run := ChatFrom(plan, w, 0, n, pool, last);
      && n + |run.attempts| == MaxAttempts(|plan.routes|) && StuckAtLead(run.attempts)
      && (n < MaxAttempts(|plan.routes|) ==>
            run.ending.error.Some? && run.ending.error.value.Failed? && RateLimited(run.ending.error.value.outcome))
    decreases MaxAttempts(|plan.routes|) - n
  {
    hide Try, Settle, ChatFrom;
    if n < MaxAttempts(|plan.routes|) {
      ChatStep(plan, w, 0, n, pool, last);
      AttemptEffect(plan, w, 0, n, pool, start, deadline);
      var id := AnyOf(spare);
      LeadStep(plan, w, n, pool, spare, id, start, deadline);
      var (p, a) := Try(plan, w, 0, n, pool);
      var q := Settle(w, n, p, a);
      StockedStays(w, pool.table, plan.routes[plan.order[0]].channel, spare, start,
                   a.selection.key, w.turn(n).markAt + pool.cooldown);
      StuckFrom(plan, w, n + 1, q, EndingOf(plan, a), spare - {a.selection.key}, start, deadline);
      if n + 1 == MaxAttempts(|plan.routes|) {
        ChatOver(plan, w, 0, n + 1, q, EndingOf(plan, a));
      }
      var rest := ChatFrom(plan, w, 0, n + 1, q, EndingOf(plan, a)).attempts;
      assert forall i :: 0 < i < |[a] + rest| ==> ([a] + rest)[i] == rest[i - 1];
    } else {
      ChatOver(plan, w, 0, n, pool, last);
    }
  }

  /**
   Nothing reserves attempts for the other channels: a leading channel with as many rate-limited keys as the
   budget uses all of it, and the request fails with its answer however healthy the rest are.
   */
  lemma LeadCanUseTheWholeBudget(plan: Plan, w: World, pool: K.Pool, spare: set<int>, start: int, deadline: int)
    requires Sound(plan) && LeadLimited(plan, w) && Timely(w, pool.cooldown, start, deadline)
    requires Stocked(w, pool.table, plan.routes[plan.order[0]].channel, spare, start)
    requires |spare| >= MaxAttempts(|plan.routes|)
    ensures var run := Chat(plan, w, pool);
      && |run.attempts| == MaxAttempts(|plan.routes|) && StuckAtLead(run.attempts)
      && run.ending.error.Some? && run.ending.error.value.Failed? && RateLimited(run.ending.error.value.outcome)
  {
    StuckFrom(plan, w, 0, pool, NOT_FOUND, spare, start, deadline);
  }
}
