/**
 Two limits that the router's comments and the requirements name: at most two attempts a channel, and one retry, on
 another channel, after a server or network error. The loops enforce neither; this module says exactly when some
 world breaks them.
 */
module AttemptLimit {
  import opened Wrappers
  import opened Failover
  import K = Keys
  import R = Router

  /** Routes of one channel share its type, as every lookup gives them. */
  predicate SameTypes(plan: Plan) {
    forall i, j ::
      0 <= i < |plan.routes| && 0 <= j < |plan.routes| && plan.routes[i].channel == plan.routes[j].channel ==>
        plan.routes[i].channelType == plan.routes[j].channelType
  }

  /** The attempt is on the channel, through any of its routes. */
  predicate On(plan: Plan, a: Attempt, channel: int) {
    a.route < |plan.routes| && plan.routes[a.route].channel == channel
  }

  /** Place p of the two rounds carries the channel. */
  predicate Carries(plan: Plan, p: nat, channel: int)
    requires Sound(plan)
  {
    p < |Sequence(plan)| && plan.routes[Sequence(plan)[p]].channel == channel
  }

  ghost predicate MoreThanTwo(plan: Plan, attempts: seq<Attempt>, channel: int) {
    exists i, j, k :: 0 <= i < j < k < |attempts|
      && On(plan, attempts[i], channel) && On(plan, attempts[j], channel) && On(plan, attempts[k], channel)
  }

  predicate HasKey(table: seq<K.ChannelKey>, channel: int) {
    exists i :: 0 <= i < |table| && table[i].channel == channel
  }

  /** The route's channel can be called at all. */
  predicate Callable(plan: Plan, table: seq<K.ChannelKey>, r: nat)
    requires r < |plan.routes|
  {
    Supported(plan.routes[r].channelType) && HasKey(table, plan.routes[r].channel)
  }

  predicate CallableAt(plan: Plan, table: seq<K.ChannelKey>, p: nat)
    requires Sound(plan)
  {
    p < |Sequence(plan)| && Callable(plan, table, Sequence(plan)[p])
  }

  // ---------- Only callable channels are called ----------

  ghost predicate CallsCallable(plan: Plan, table: seq<K.ChannelKey>, attempts: seq<Attempt>) {
    forall i :: 0 <= i < |attempts| && attempts[i].outcome.Some? ==>
      attempts[i].route < |plan.routes| && Callable(plan, table, attempts[i].route)
  }

  lemma TryCallable(plan: Plan, w: World, pos: nat, n: nat, pool: K.Pool)
    requires Sound(plan) && pos < |Sequence(plan)|
    ensures var (p, a) := Try(plan, w, pos, n, pool);
      && a.route < |plan.routes|
      && (a.outcome.Some? ==> Callable(plan, pool.table, a.route))
      && (After(a) == NextKey ==> a.outcome.Some?)
      && forall channel :: HasKey(Settle(w, n, p, a).table, channel) <==> HasKey(pool.table, channel)
  {
    hide K.AfterSelect, K.Cooled, Supported;
    var (p, a) := Try(plan, w, pos, n, pool);
    var route := plan.routes[a.route];
    K.SelectionIsReady(pool, route.channel, route.balance, w.turn(n).draw);
    CooledKeeps(pool.table, if After(a) == NextKey then a.selection.key else 0, w.turn(n).markAt + pool.cooldown);
    if a.outcome.Some? {
      var k :| k in pool.table && k.channel == route.channel;
      var i :| 0 <= i < |pool.table| && pool.table[i] == k;
      assert HasKey(pool.table, route.channel);
    }
  }

  lemma CooledKeeps(table: seq<K.ChannelKey>, key: int, until: int)
    ensures forall channel :: HasKey(K.Cooled(table, key, until), channel) <==> HasKey(table, channel)
  {
    var after := K.Cooled(table, key, until);
    assert |after| == |table| && forall i :: 0 <= i < |table| ==> after[i].channel == table[i].channel;
    forall channel
      ensures HasKey(after, channel) <==> HasKey(table, channel)
    {
    }
  }

  lemma {:induction false} RunCalls(plan: Plan, w: World, pos: nat, n: nat, pool: K.Pool, last: Ending)
    requires Sound(plan)
    ensures CallsCallable(plan, pool.table, ChatFrom(plan, w, pos, n, pool, last).attempts)
    decreases MaxAttempts(|plan.routes|) - n
  {
    hide Try, Settle, ChatFrom, HasKey;
    if pos < |Sequence(plan)| && n < MaxAttempts(|plan.routes|) {
      ChatStep(plan, w, pos, n, pool, last);
      TryCallable(plan, w, pos, n, pool);
      var (p, a) := Try(plan, w, pos, n, pool);
      if After(a) != Stop {
        var next, q := if After(a) == NextKey then pos else pos + 1, Settle(w, n, p, a);
        RunCalls(plan, w, next, n + 1, q, EndingOf(plan, a));
        var rest := ChatFrom(plan, w, next, n + 1, q, EndingOf(plan, a)).attempts;
        assert forall i :: 0 < i < |[a] + rest| ==> ([a] + rest)[i] == rest[i - 1];
      }
    } else {
      ChatOver(plan, w, pos, n, pool, last);
    }
  }

  // ---------- Places ----------

  lemma {:induction false} PositionsGrow(plan: Plan, attempts: seq<Attempt>, i: nat, k: nat)
    requires Sound(plan) && i <= k < |attempts| && forall m :: 0 <= m < |attempts| ==> Steps(plan, attempts, m)
    ensures attempts[i].position <= attempts[k].position <= attempts[i].position + (k - i)
    ensures i < k && After(attempts[i]) != NextKey ==> attempts[i].position < attempts[k].position
    decreases k - i
  {
    if i < k {
      PositionsGrow(plan, attempts, i, k - 1);
      assert Steps(plan, attempts, k - 1) && Steps(plan, attempts, i);
      if k - 1 == i {
        assert attempts[k].position == if After(attempts[i]) == NextKey then attempts[i].position
          else attempts[i].position + 1;
      }
    }
  }

  /**
   What every run looks like: at most four attempts, each at a place no later than its number, calls on callable
   routes.
   */
  ghost predicate Ordered(plan: Plan, table: seq<K.ChannelKey>, attempts: seq<Attempt>)
    requires Sound(plan)
  {
    && |attempts| <= MaxAttempts(|plan.routes|)
    && (forall i :: 0 <= i < |attempts| ==>
          attempts[i].position <= i && attempts[i].position < |Sequence(plan)|
          && attempts[i].route == Sequence(plan)[attempts[i].position])
    && (forall i, j :: 0 <= i < j < |attempts| ==>
          attempts[i].position <= attempts[j].position
          && (After(attempts[i]) != NextKey ==> attempts[i].position < attempts[j].position))
    && (forall i :: 0 <= i < |attempts| - 1 && After(attempts[i]) == NextChannel ==>
          attempts[i + 1].position == attempts[i].position + 1)
    && CallsCallable(plan, table, attempts)
  }

  lemma RunOrdered(plan: Plan, w: World, pool: K.Pool)
    requires Sound(plan)
    ensures Ordered(plan, pool.table, Chat(plan, w, pool).attempts)
  {
    AttemptsAndEnding(plan, w, pool);
    RunCalls(plan, w, 0, 0, pool, NOT_FOUND);
    hide ChatFrom, Callable;
    var attempts := Chat(plan, w, pool).attempts;
    forall i | 0 <= i < |attempts|
      ensures Steps(plan, attempts, i) && attempts[i].position <= i
    {
      assert Steps(plan, attempts, i);
      PositionsGrow(plan, attempts, 0, i);
    }
    forall i, j | 0 <= i < j < |attempts|
      ensures attempts[i].position <= attempts[j].position
      ensures After(attempts[i]) != NextKey ==> attempts[i].position < attempts[j].position
    {
      PositionsGrow(plan, attempts, i, j);
    }
  }

  // ---------- Two attempts a channel ----------

  /** One of the first two places can be called and carries the channel, or three of the first four carry it. */
  ghost predicate Exceedable(plan: Plan, table: seq<K.ChannelKey>, channel: int)
    requires Sound(plan)
  {
    && |plan.routes| >= 2
    && ((exists p: nat :: p < 2 && Carries(plan, p, channel) && CallableAt(plan, table, p))
        || (exists p: nat, q: nat, r: nat :: p < q < r < 4
              && Carries(plan, p, channel) && Carries(plan, q, channel) && Carries(plan, r, channel)))
  }

  lemma SharedCallable(plan: Plan, table: seq<K.ChannelKey>, i: nat, j: nat)
    requires SameTypes(plan) && i < |plan.routes| && j < |plan.routes|
    requires plan.routes[i].channel == plan.routes[j].channel
    ensures Callable(plan, table, i) <==> Callable(plan, table, j)
  {
  }

  /** What the order says of two attempts. */
  lemma OrderedPair(plan: Plan, table: seq<K.ChannelKey>, attempts: seq<Attempt>, i: nat, j: nat)
    requires Sound(plan) && Ordered(plan, table, attempts) && i < j < |attempts|
    ensures attempts[i].position <= attempts[j].position <= j && attempts[i].position <= i
    ensures After(attempts[i]) != NextKey ==> attempts[i].position < attempts[j].position
  {
    hide CallsCallable;
  }

  lemma OrderedAt(plan: Plan, table: seq<K.ChannelKey>, attempts: seq<Attempt>, i: nat)
    requires Sound(plan) && Ordered(plan, table, attempts) && i < |attempts|
    ensures var a := attempts[i];
      && a.position < |Sequence(plan)| && a.route == Sequence(plan)[a.position] && a.route < |plan.routes|
      && (a.outcome.Some? ==> Callable(plan, table, a.route) && CallableAt(plan, table, a.position))
      && (After(a) == NextKey ==> a.outcome.Some?)
      && forall channel :: On(plan, a, channel) ==> Carries(plan, a.position, channel)
  {
    hide Callable;
  }

  lemma FourAtMost(plan: Plan, table: seq<K.ChannelKey>, attempts: seq<Attempt>)
    requires Sound(plan) && Ordered(plan, table, attempts)
    ensures |attempts| <= 4 && (|attempts| > 2 ==> |plan.routes| >= 2)
  {
    hide CallsCallable;
  }

  lemma ThreeNeed(
    plan: Plan, table: seq<K.ChannelKey>, attempts: seq<Attempt>, channel: int, i: nat, j: nat, k: nat)
    requires Sound(plan) && SameTypes(plan) && Ordered(plan, table, attempts) && i < j < k < |attempts|
    requires On(plan, attempts[i], channel) && On(plan, attempts[j], channel) && On(plan, attempts[k], channel)
    ensures Exceedable(plan, table, channel)
  {
    hide Callable, CallableAt, SameTypes, Ordered, Sequence, Carries, On, After, MaxAttempts;
    FourAtMost(plan, table, attempts);
    OrderedAt(plan, table, attempts, i);
    OrderedAt(plan, table, attempts, j);
    OrderedAt(plan, table, attempts, k);
    OrderedPair(plan, table, attempts, i, j);
    OrderedPair(plan, table, attempts, j, k);
    var p, q, r := attempts[i].position, attempts[j].position, attempts[k].position;
    if p < q < r {
      assert r < 4;
    } else {
      StayedCallable(plan, table, attempts, i, if p < q then j else i, channel);
      assert p < 2;
    }
  }

  /** More than two attempts on a channel need that condition. */
  lemma BreakNeeds(plan: Plan, w: World, pool: K.Pool, channel: int)
    requires Sound(plan) && SameTypes(plan) && MoreThanTwo(plan, Chat(plan, w, pool).attempts, channel)
    ensures Exceedable(plan, pool.table, channel)
  {
    hide Chat, SameTypes, Ordered, On, Exceedable;
    var attempts := Chat(plan, w, pool).attempts;
    RunOrdered(plan, w, pool);
    var i, j, k :| 0 <= i < j < k < |attempts|
      && On(plan, attempts[i], channel) && On(plan, attempts[j], channel) && On(plan, attempts[k], channel);
    ThreeNeed(plan, pool.table, attempts, channel, i, j, k);
  }

  /** An attempt that kept its place shows that its channel can be called, at any of its places. */
  lemma StayedCallable(plan: Plan, table: seq<K.ChannelKey>, attempts: seq<Attempt>, i: nat, s: nat, channel: int)
    requires Sound(plan) && SameTypes(plan) && Ordered(plan, table, attempts) && i <= s < |attempts|
    requires On(plan, attempts[i], channel) && On(plan, attempts[s], channel) && After(attempts[s]) == NextKey
    ensures CallableAt(plan, table, attempts[i].position)
  {
    OrderedAt(plan, table, attempts, i);
    OrderedAt(plan, table, attempts, s);
    SharedCallable(plan, table, attempts[s].route, attempts[i].route);
    hide Callable, Ordered;
  }

  // ---------- Worlds that break a limit ----------

  /** A moment at which no key is cooling. */
  function Horizon(table: seq<K.ChannelKey>): int {
    if |table| == 0 then 0 else
    var k, before := table[|table| - 1], Horizon(table[..|table| - 1]);
    if k.cooldownUntil.Some? && k.cooldownUntil.value >= before then k.cooldownUntil.value + 1 else before
  }

  lemma {:induction false} AllReady(table: seq<K.ChannelKey>, now: int)
    requires now >= Horizon(table)
    ensures forall k :: k in table ==> K.Ready(k, now)
  {
    if |table| == 0 {
    } else {
      AllReady(table[..|table| - 1], now);
      assert forall k :: k in table ==> k in table[..|table| - 1] || k == table[|table| - 1];
    }
  }

  ghost predicate Decryptable(table: seq<K.ChannelKey>, channel: int) {
    forall k :: k in table && k.channel == channel ==> k.usable
  }

  const TOO_MANY := UpstreamError(429, false, "rate limited")

  /**
   A world in which attempts pass from place to place, because the key table cannot be read, up to place `stay`, where
   every call is rate limited without a cooldown; at attempt number `fail` the table can be read and the call fails.
   */
  function Staged(table: seq<K.ChannelKey>, fail: nat, stay: nat): World {
    World((n: nat) => Turn(K.Draw(n == fail || n >= stay, Horizon(table), 0), 0, false),
          (n: nat, r: nat, key: int) => Reply([], if n >= stay then TOO_MANY else HttpError(500, "down")))
  }

  /** The call of the attempt fails as a channel failure does: by a 5xx or in the network. */
  predicate Failed(a: Attempt) {
    a.selection.Picked? && a.outcome.Some? && ChannelFailed(a.outcome.value)
  }

  predicate Called(a: Attempt) {
    a.selection.Picked? && a.outcome.Some?
  }

  /** The place can be called, and every key of its channel decrypts. */
  ghost predicate Open(plan: Plan, table: seq<K.ChannelKey>, p: nat)
    requires Sound(plan)
  {
    CallableAt(plan, table, p) && Decryptable(table, plan.routes[Sequence(plan)[p]].channel)
  }

  /** The stage can be set: the failing and the staying attempt are at open places. */
  ghost predicate Playable(plan: Plan, table: seq<K.ChannelKey>, fail: nat, stay: nat)
    requires Sound(plan)
  {
    var max := MaxAttempts(|plan.routes|);
    (fail < max ==> fail < stay && Open(plan, table, fail)) && (stay < max ==> Open(plan, table, stay))
  }

  function PlaceOf(n: nat, stay: nat): nat {
    if n < stay then n else stay
  }

  lemma StagedTry(plan: Plan, fail: nat, stay: nat, n: nat, pool: K.Pool)
    requires Sound(plan) && Playable(plan, pool.table, fail, stay) && n < MaxAttempts(|plan.routes|)
    ensures var w := Staged(pool.table, fail, stay);
      var pos := PlaceOf(n, stay);
      pos < |Sequence(plan)| &&
      var (p, a) := Try(plan, w, pos, n, pool);
      && a.route == Sequence(plan)[pos] && a.position == pos && Settle(w, n, p, a).table == pool.table
      && After(a) == (if n >= stay then NextKey else NextChannel)
      && (n == fail ==> Failed(a)) && (n >= stay ==> Called(a))
  {
    var w, pos := Staged(pool.table, fail, stay), PlaceOf(n, stay);
    hide K.AfterSelect, Horizon;
    var route := plan.routes[Sequence(plan)[pos]];
    K.SelectionIsReady(pool, route.channel, route.balance, w.turn(n).draw);
    if n == fail || n >= stay {
      ReadyPicked(pool, route.channel, route.balance, w.turn(n).draw);
      var a := Try(plan, w, pos, n, pool).1;
      assert a.selection.Picked? && Supported(route.channelType);
      assert a.outcome == Some(if n >= stay then TOO_MANY else HttpError(500, "down"));
    } else {
      UnreadableTable(pool, route.channel, route.balance, w.turn(n).draw);
    }
  }

  lemma UnreadableTable(p: K.Pool, channel: int, balance: string, d: K.Draw)
    requires !d.readOk
    ensures K.AfterSelect(p, channel, balance, d) == (p, K.NoKey(K.StoreFailed))
  {
  }

  lemma ReadyPicked(p: K.Pool, channel: int, balance: string, d: K.Draw)
    requires d.readOk && d.now >= Horizon(p.table) && HasKey(p.table, channel) && Decryptable(p.table, channel)
    ensures K.AfterSelect(p, channel, balance, d).1.Picked?
  {
    AllReady(p.table, d.now);
    var i :| 0 <= i < |p.table| && p.table[i].channel == channel;
    var k := p.table[i];
    var keys := K.KeysOf(p.table, channel);
    var avail := K.Available(keys, d.now);
    assert k in p.table && k in keys && k in avail;
    forall m | 0 <= m < |avail|
      ensures avail[m].usable
    {
      assert avail[m] in avail;
    }
  }

  /** Attempt number n of the staged world. */
  ghost predicate PlayedAt(plan: Plan, a: Attempt, fail: nat, stay: nat, n: nat)
    requires Sound(plan)
  {
    && PlaceOf(n, stay) < |Sequence(plan)| && a.route == Sequence(plan)[PlaceOf(n, stay)]
    && (n == fail ==> Failed(a)) && (n >= stay ==> Called(a))
  }

  /** The attempts of the staged world, from number n on. */
  ghost predicate Played(plan: Plan, attempts: seq<Attempt>, fail: nat, stay: nat, n: nat)
    requires Sound(plan)
  {
    && n + |attempts| == MaxAttempts(|plan.routes|)
    && forall i :: 0 <= i < |attempts| ==> PlayedAt(plan, attempts[i], fail, stay, n + i)
  }

  lemma PlayedBefore(plan: Plan, a: Attempt, rest: seq<Attempt>, fail: nat, stay: nat, n: nat)
    requires Sound(plan) && Played(plan, rest, fail, stay, n + 1) && PlayedAt(plan, a, fail, stay, n)
    ensures Played(plan, [a] + rest, fail, stay, n)
  {
    hide PlayedAt;
    var all := [a] + rest;
    forall i | 0 <= i < |all|
      ensures PlayedAt(plan, all[i], fail, stay, n + i)
    {
      if i > 0 {
        assert all[i] == rest[i - 1];
        assert PlayedAt(plan, rest[i - 1], fail, stay, (n + 1) + (i - 1));
      }
    }
  }

  lemma {:induction false} StagedRun(plan: Plan, fail: nat, stay: nat, n: nat, pool: K.Pool, last: Ending)
    requires Sound(plan) && Playable(plan, pool.table, fail, stay) && n <= MaxAttempts(|plan.routes|)
    ensures var w := Staged(pool.table, fail, stay);
      Played(plan, ChatFrom(plan, w, PlaceOf(n, stay), n, pool, last).attempts, fail, stay, n)
    decreases MaxAttempts(|plan.routes|) - n
  {
    hide Try, Settle, ChatFrom, Staged, Playable, Failed, Called;
    var w, pos := Staged(pool.table, fail, stay), PlaceOf(n, stay);
    if n == MaxAttempts(|plan.routes|) {
      ChatOver(plan, w, pos, n, pool, last);
    } else {
      StagedTry(plan, fail, stay, n, pool);
      ChatStep(plan, w, pos, n, pool, last);
      var (p, a) := Try(plan, w, pos, n, pool);
      var q := Settle(w, n, p, a);
      StagedRun(plan, fail, stay, n + 1, q, EndingOf(plan, a));
      PlayedBefore(plan, a, ChatFrom(plan, w, PlaceOf(n + 1, stay), n + 1, q, EndingOf(plan, a)).attempts, fail,
          stay, n);
    }
  }

  lemma Staging(plan: Plan, fail: nat, stay: nat, pool: K.Pool)
    requires Sound(plan) && Playable(plan, pool.table, fail, stay)
    ensures Played(plan, Chat(plan, Staged(pool.table, fail, stay), pool).attempts, fail, stay, 0)
  {
    hide Staged, Playable, ChatFrom;
    StagedRun(plan, fail, stay, 0, pool, NOT_FOUND);
  }

  ghost predicate AllDecryptable(table: seq<K.ChannelKey>) {
    forall k :: k in table ==> k.usable
  }

  lemma OpenWhenCallable(plan: Plan, table: seq<K.ChannelKey>, p: nat)
    requires Sound(plan) && CallableAt(plan, table, p)
    requires Decryptable(table, plan.routes[Sequence(plan)[p]].channel) || AllDecryptable(table)
    ensures Open(plan, table, p)
  {
  }

  /** No call emits anything. */
  ghost predicate Silent(w: World) {
    forall n, r, key :: w.reply(n, r, key).events == []
  }

  lemma StagedSilent(table: seq<K.ChannelKey>, fail: nat, stay: nat)
    ensures Silent(Staged(table, fail, stay))
  {
  }

  lemma LimitBreaks(plan: Plan, pool: K.Pool, channel: int) returns (w: World)
    requires Sound(plan) && Decryptable(pool.table, channel) && Exceedable(plan, pool.table, channel)
    ensures MoreThanTwo(plan, Chat(plan, w, pool).attempts, channel) && Silent(w)
  {
    hide Chat, Decryptable, Open, Staged, Silent;
    if p: nat :| p < 2 && Carries(plan, p, channel) && CallableAt(plan, pool.table, p) {
      OpenWhenCallable(plan, pool.table, p);
      w := Staged(pool.table, 4, p);
      StagedSilent(pool.table, 4, p);
      Staging(plan, 4, p, pool);
      var attempts := Chat(plan, w, pool).attempts;
      assert On(plan, attempts[1], channel) && On(plan, attempts[2], channel) && On(plan, attempts[3], channel);
    } else {
      var p: nat, q: nat, r: nat :| p < q < r < 4
        && Carries(plan, p, channel) && Carries(plan, q, channel) && Carries(plan, r, channel);
      w := Staged(pool.table, 4, 4);
      StagedSilent(pool.table, 4, 4);
      Staging(plan, 4, 4, pool);
      var attempts := Chat(plan, w, pool).attempts;
      assert On(plan, attempts[p], channel) && On(plan, attempts[q], channel) && On(plan, attempts[r], channel);
    }
  }

  /**
   A channel whose keys decrypt can get more than two attempts exactly when there are two routes or more and either a
   route of it that can be called is at one of the first two places, or three of the first four places are its own.
   For every other channel the intended limit holds in every world.
   */
  lemma TwoAttemptLimit(plan: Plan, pool: K.Pool, channel: int)
    requires Sound(plan) && SameTypes(plan) && Decryptable(pool.table, channel)
    ensures (exists w :: MoreThanTwo(plan, Chat(plan, w, pool).attempts, channel)) <==>
      Exceedable(plan, pool.table, channel)
  {
    hide Chat, Decryptable, Exceedable, MoreThanTwo, SameTypes;
    if Exceedable(plan, pool.table, channel) {
      var w := LimitBreaks(plan, pool, channel);
    }
    if w :| MoreThanTwo(plan, Chat(plan, w, pool).attempts, channel) {
      BreakNeeds(plan, w, pool, channel);
    }
  }

  // ---------- One retry, on another channel ----------

  /** After a 5xx or a network error more than one attempt follows. */
  ghost predicate ManyRetries(attempts: seq<Attempt>) {
    exists i :: 0 <= i < |attempts| - 2 && Failed(attempts[i])
  }

  /** After a 5xx or a network error more than one call follows. */
  ghost predicate ManyRetryCalls(attempts: seq<Attempt>) {
    exists i, j, k :: 0 <= i < j < k < |attempts| && Failed(attempts[i]) && Called(attempts[j]) && Called(attempts[k])
  }

  /** The attempt after a 5xx or a network error is on the same channel. */
  ghost predicate SameChannelRetry(plan: Plan, attempts: seq<Attempt>) {
    exists i :: 0 <= i < |attempts| - 1 && FailedOnSame(plan, attempts, i)
  }

  ghost predicate FailedOnSame(plan: Plan, attempts: seq<Attempt>, i: nat)
    requires i < |attempts| - 1
  {
    && Failed(attempts[i]) && attempts[i].route < |plan.routes|
    && On(plan, attempts[i + 1], plan.routes[attempts[i].route].channel)
  }

  ghost predicate RetryOpen(plan: Plan, table: seq<K.ChannelKey>)
    requires Sound(plan)
  {
    |plan.routes| >= 2 && exists p: nat :: p < 2 && CallableAt(plan, table, p)
  }

  ghost predicate TwoOpen(plan: Plan, table: seq<K.ChannelKey>)
    requires Sound(plan)
  {
    |plan.routes| >= 2 && exists p: nat, q: nat :: p < q < 3 && CallableAt(plan, table, p) && CallableAt(plan, table, q)
  }

  /** A callable place within the budget, followed by a place of the same channel. */
  ghost predicate NeighbourOpen(plan: Plan, table: seq<K.ChannelKey>)
    requires Sound(plan)
  {
    exists p: nat :: p + 1 < MaxAttempts(|plan.routes|) && CallableAt(plan, table, p) && Neighbours(plan, p)
  }

  predicate Neighbours(plan: Plan, p: nat)
    requires Sound(plan)
  {
    p + 1 < |Sequence(plan)| && Carries(plan, p + 1, plan.routes[Sequence(plan)[p]].channel)
  }

  /** A call that failed moves on to the next place. */
  lemma FailedMovesOn(plan: Plan, table: seq<K.ChannelKey>, attempts: seq<Attempt>, i: nat)
    requires Sound(plan) && Ordered(plan, table, attempts) && i < |attempts| && Failed(attempts[i])
    ensures After(attempts[i]) == NextChannel && CallableAt(plan, table, attempts[i].position)
    ensures i < |attempts| - 1 ==> attempts[i + 1].position == attempts[i].position + 1
  {
    OrderedAt(plan, table, attempts, i);
    hide CallsCallable, Callable;
  }

  lemma ManyNeed(plan: Plan, table: seq<K.ChannelKey>, attempts: seq<Attempt>)
    requires Sound(plan) && Ordered(plan, table, attempts) && ManyRetries(attempts)
    ensures RetryOpen(plan, table)
  {
    hide Ordered, CallableAt, Failed, After, MaxAttempts, Sequence;
    FourAtMost(plan, table, attempts);
    var i :| 0 <= i < |attempts| - 2 && Failed(attempts[i]);
    FailedMovesOn(plan, table, attempts, i);
    OrderedPair(plan, table, attempts, i, i + 1);
    assert attempts[i].position < 2;
  }

  lemma ManyCallsNeed(plan: Plan, table: seq<K.ChannelKey>, attempts: seq<Attempt>)
    requires Sound(plan) && Ordered(plan, table, attempts) && ManyRetryCalls(attempts)
    ensures TwoOpen(plan, table)
  {
    hide Ordered, CallableAt, Callable, Failed, After, MaxAttempts, Sequence;
    FourAtMost(plan, table, attempts);
    var i, j, k :| 0 <= i < j < k < |attempts| && Failed(attempts[i]) && Called(attempts[j]) && Called(attempts[k]);
    FailedMovesOn(plan, table, attempts, i);
    OrderedAt(plan, table, attempts, j);
    OrderedPair(plan, table, attempts, i, j);
    assert attempts[i].position < attempts[j].position < 3;
  }

  lemma SameChannelNeeds(plan: Plan, table: seq<K.ChannelKey>, attempts: seq<Attempt>)
    requires Sound(plan) && Ordered(plan, table, attempts) && SameChannelRetry(plan, attempts)
    ensures NeighbourOpen(plan, table)
  {
    var i :| 0 <= i < |attempts| - 1 && FailedOnSame(plan, attempts, i);
    FailedMovesOn(plan, table, attempts, i);
    OrderedAt(plan, table, attempts, i);
    OrderedAt(plan, table, attempts, i + 1);
    OrderedPair(plan, table, attempts, i, i + 1);
    assert |attempts| <= MaxAttempts(|plan.routes|);
    hide Ordered, CallableAt, Callable;
    assert Neighbours(plan, attempts[i].position);
  }

  lemma RetriesNeed(plan: Plan, w: World, pool: K.Pool)
    requires Sound(plan)
    ensures var attempts := Chat(plan, w, pool).attempts;
      && (ManyRetries(attempts) ==> RetryOpen(plan, pool.table))
      && (ManyRetryCalls(attempts) ==> TwoOpen(plan, pool.table))
      && (SameChannelRetry(plan, attempts) ==> NeighbourOpen(plan, pool.table))
  {
    hide *;
    var attempts := Chat(plan, w, pool).attempts;
    RunOrdered(plan, w, pool);
    if ManyRetries(attempts) {
      ManyNeed(plan, pool.table, attempts);
    }
    if ManyRetryCalls(attempts) {
      ManyCallsNeed(plan, pool.table, attempts);
    }
    if SameChannelRetry(plan, attempts) {
      SameChannelNeeds(plan, pool.table, attempts);
    }
  }

  lemma ManyHappen(plan: Plan, pool: K.Pool) returns (w: World)
    requires Sound(plan) && AllDecryptable(pool.table) && RetryOpen(plan, pool.table)
    ensures ManyRetries(Chat(plan, w, pool).attempts) && Silent(w)
  {
    hide Chat, Open, AllDecryptable, CallableAt, Failed, Called, Staged, Silent;
    var p: nat :| p < 2 && CallableAt(plan, pool.table, p);
    OpenWhenCallable(plan, pool.table, p);
    Staging(plan, p, 4, pool);
    StagedSilent(pool.table, p, 4);
    w := Staged(pool.table, p, 4);
    assert Failed(Chat(plan, w, pool).attempts[p]);
  }

  lemma ManyCallsHappen(plan: Plan, pool: K.Pool) returns (w: World)
    requires Sound(plan) && AllDecryptable(pool.table) && TwoOpen(plan, pool.table)
    ensures ManyRetryCalls(Chat(plan, w, pool).attempts) && Silent(w)
  {
    hide Chat, Open, AllDecryptable, CallableAt, Failed, Called, Staged, Silent;
    var p: nat, q: nat :| p < q < 3 && CallableAt(plan, pool.table, p) && CallableAt(plan, pool.table, q);
    OpenWhenCallable(plan, pool.table, p);
    OpenWhenCallable(plan, pool.table, q);
    Staging(plan, p, q, pool);
    StagedSilent(pool.table, p, q);
    w := Staged(pool.table, p, q);
    var attempts := Chat(plan, w, pool).attempts;
    assert Failed(attempts[p]) && Called(attempts[q]) && Called(attempts[q + 1]);
  }

  lemma SameChannelHappens(plan: Plan, pool: K.Pool) returns (w: World)
    requires Sound(plan) && AllDecryptable(pool.table) && NeighbourOpen(plan, pool.table)
    ensures SameChannelRetry(plan, Chat(plan, w, pool).attempts) && Silent(w)
  {
    hide Chat, Open, AllDecryptable, CallableAt, Failed, Called, Staged, Silent;
    var p: nat :| p + 1 < MaxAttempts(|plan.routes|) && CallableAt(plan, pool.table, p) && Neighbours(plan, p);
    OpenWhenCallable(plan, pool.table, p);
    Staging(plan, p, 4, pool);
    StagedSilent(pool.table, p, 4);
    w := Staged(pool.table, p, 4);
    var attempts := Chat(plan, w, pool).attempts;
    assert FailedOnSame(plan, attempts, p);
  }

  lemma RetriesHappen(plan: Plan, pool: K.Pool)
    requires Sound(plan) && AllDecryptable(pool.table)
    ensures RetryOpen(plan, pool.table) ==> exists w :: ManyRetries(Chat(plan, w, pool).attempts) && Silent(w)
    ensures TwoOpen(plan, pool.table) ==> exists w :: ManyRetryCalls(Chat(plan, w, pool).attempts) && Silent(w)
    ensures NeighbourOpen(plan, pool.table) ==>
      exists w :: SameChannelRetry(plan, Chat(plan, w, pool).attempts) && Silent(w)
  {
    hide *;
    if RetryOpen(plan, pool.table) {
      var w := ManyHappen(plan, pool);
    }
    if TwoOpen(plan, pool.table) {
      var w := ManyCallsHappen(plan, pool);
    }
    if NeighbourOpen(plan, pool.table) {
      var w := SameChannelHappens(plan, pool);
    }
  }

  /**
   One retry, on another channel, after a 5xx or a network error: with decryptable keys, some world breaks it in number
   of attempts exactly when there are two routes or more and one of the first two places can be called; in number of
   calls exactly when two of the first three can; and in the choice of channel exactly when a callable place
   within the budget is followed by a place of the same channel.
   */
  lemma OneRetry(plan: Plan, pool: K.Pool)
    requires Sound(plan) && AllDecryptable(pool.table)
    ensures (exists w :: ManyRetries(Chat(plan, w, pool).attempts)) <==> RetryOpen(plan, pool.table)
    ensures (exists w :: ManyRetryCalls(Chat(plan, w, pool).attempts)) <==> TwoOpen(plan, pool.table)
    ensures (exists w :: SameChannelRetry(plan, Chat(plan, w, pool).attempts)) <==> NeighbourOpen(plan, pool.table)
  {
    hide Chat, ManyRetries, ManyRetryCalls, SameChannelRetry, RetryOpen, TwoOpen, NeighbourOpen;
    RetriesHappen(plan, pool);
    if w :| ManyRetries(Chat(plan, w, pool).attempts) {
      RetriesNeed(plan, w, pool);
    }
    if w :| ManyRetryCalls(Chat(plan, w, pool).attempts) {
      RetriesNeed(plan, w, pool);
    }
    if w :| SameChannelRetry(plan, Chat(plan, w, pool).attempts) {
      RetriesNeed(plan, w, pool);
    }
  }

  // ---------- The same for streaming runs ----------

  /** A streaming run breaks a limit only where some plain run does. */
  lemma StreamsBreakLess(plan: Plan, c: Run, s: StreamRun, channel: int)
    requires Follows(plan, c, s)
    ensures MoreThanTwo(plan, s.attempts, channel) ==> MoreThanTwo(plan, c.attempts, channel)
    ensures ManyRetries(s.attempts) ==> ManyRetries(c.attempts)
    ensures ManyRetryCalls(s.attempts) ==> ManyRetryCalls(c.attempts)
    ensures SameChannelRetry(plan, s.attempts) ==> SameChannelRetry(plan, c.attempts)
  {
    hide Failed, After;
    if s.handed != [] {
      var m := |c.attempts| - 1;
      assert forall k :: 0 <= k < m ==> s.attempts[k] == s.attempts[..m][k] && c.attempts[k] == c.attempts[..m][k];
      assert forall k :: 0 <= k <= m ==>
        s.attempts[k].route == c.attempts[k].route && s.attempts[k].selection == c.attempts[k].selection
        && s.attempts[k].outcome.Some? == c.attempts[k].outcome.Some?;
      if SameChannelRetry(plan, s.attempts) {
        var i :| 0 <= i < |s.attempts| - 1 && FailedOnSame(plan, s.attempts, i);
        assert FailedOnSame(plan, c.attempts, i);
      }
    }
  }

  /** With a client that takes every event, streaming breaks the limits under the same conditions. */
  lemma StreamLimits(plan: Plan, sink: Sink, pool: K.Pool, channel: int)
    requires Sound(plan) && SameTypes(plan) && AllDecryptable(pool.table) && forall events :: sink(events)
    ensures (exists w :: MoreThanTwo(plan, ChatStream(plan, w, sink, pool).attempts, channel)) <==>
      Exceedable(plan, pool.table, channel)
    ensures (exists w :: ManyRetries(ChatStream(plan, w, sink, pool).attempts)) <==> RetryOpen(plan, pool.table)
    ensures (exists w :: ManyRetryCalls(ChatStream(plan, w, sink, pool).attempts)) <==> TwoOpen(plan, pool.table)
    ensures (exists w :: SameChannelRetry(plan, ChatStream(plan, w, sink, pool).attempts)) <==>
      NeighbourOpen(plan, pool.table)
  {
    StreamLimitsReached(plan, sink, pool, channel);
    hide *;
    if w :| MoreThanTwo(plan, ChatStream(plan, w, sink, pool).attempts, channel) {
      StreamNeeds(plan, w, sink, pool, channel);
    }
    if w :| ManyRetries(ChatStream(plan, w, sink, pool).attempts) {
      StreamNeeds(plan, w, sink, pool, channel);
    }
    if w :| ManyRetryCalls(ChatStream(plan, w, sink, pool).attempts) {
      StreamNeeds(plan, w, sink, pool, channel);
    }
    if w :| SameChannelRetry(plan, ChatStream(plan, w, sink, pool).attempts) {
      StreamNeeds(plan, w, sink, pool, channel);
    }
  }

  /** In every world and with every sink a broken limit needs its condition. */
  lemma StreamNeeds(plan: Plan, w: World, sink: Sink, pool: K.Pool, channel: int)
    requires Sound(plan) && SameTypes(plan)
    ensures var attempts := ChatStream(plan, w, sink, pool).attempts;
      && (MoreThanTwo(plan, attempts, channel) ==> Exceedable(plan, pool.table, channel))
      && (ManyRetries(attempts) ==> RetryOpen(plan, pool.table))
      && (ManyRetryCalls(attempts) ==> TwoOpen(plan, pool.table))
      && (SameChannelRetry(plan, attempts) ==> NeighbourOpen(plan, pool.table))
  {
    StreamIsMuted(plan, w, sink, 0, 0, pool, NOT_FOUND);
    var v := Muted(w, sink);
    assert Follows(plan, Chat(plan, v, pool), ChatStream(plan, w, sink, pool));
    hide *;
    StreamsBreakLess(plan, Chat(plan, v, pool), ChatStream(plan, w, sink, pool), channel);
    RetriesNeed(plan, v, pool);
    if MoreThanTwo(plan, Chat(plan, v, pool).attempts, channel) {
      BreakNeeds(plan, v, pool, channel);
    }
  }

  lemma SilentStream(plan: Plan, w: World, sink: Sink, pool: K.Pool)
    requires Sound(plan) && Silent(w) && forall events :: sink(events)
    ensures ChatStream(plan, w, sink, pool).attempts == Chat(plan, w, pool).attempts
  {
    SimulationOfChat(plan, w, sink, pool);
  }

  lemma StreamLimitsReached(plan: Plan, sink: Sink, pool: K.Pool, channel: int)
    requires Sound(plan) && AllDecryptable(pool.table) && forall events :: sink(events)
    ensures Exceedable(plan, pool.table, channel) ==>
      exists w :: MoreThanTwo(plan, ChatStream(plan, w, sink, pool).attempts, channel)
    ensures RetryOpen(plan, pool.table) ==> exists w :: ManyRetries(ChatStream(plan, w, sink, pool).attempts)
    ensures TwoOpen(plan, pool.table) ==> exists w :: ManyRetryCalls(ChatStream(plan, w, sink, pool).attempts)
    ensures NeighbourOpen(plan, pool.table) ==>
      exists w :: SameChannelRetry(plan, ChatStream(plan, w, sink, pool).attempts)
  {
    RetriesHappen(plan, pool);
    assert Decryptable(pool.table, channel);
    hide *;
    if Exceedable(plan, pool.table, channel) {
      var w := LimitBreaks(plan, pool, channel);
      SilentStream(plan, w, sink, pool);
    }
    if RetryOpen(plan, pool.table) {
      var w :| ManyRetries(Chat(plan, w, pool).attempts) && Silent(w);
      SilentStream(plan, w, sink, pool);
    }
    if TwoOpen(plan, pool.table) {
      var w :| ManyRetryCalls(Chat(plan, w, pool).attempts) && Silent(w);
      SilentStream(plan, w, sink, pool);
    }
    if NeighbourOpen(plan, pool.table) {
      var w :| SameChannelRetry(plan, Chat(plan, w, pool).attempts) && Silent(w);
      SilentStream(plan, w, sink, pool);
    }
  }

  /**
   Two neighbouring places carry one channel when there is only one route, and when two routes share a channel in
   the right places.
   */
  lemma NeighboursMeaning(plan: Plan, p: nat)
    requires Sound(plan) && p + 1 < |Sequence(plan)|
    ensures Neighbours(plan, p) <==>
      plan.routes[Sequence(plan)[p]].channel == plan.routes[Sequence(plan)[p + 1]].channel
    ensures |plan.routes| == 1 ==> Neighbours(plan, p)
  {
    if |plan.routes| == 1 {
      assert Sequence(plan)[p] == 0 && Sequence(plan)[p + 1] == 0;
    }
  }

  // ---------- Inputs that break the limits ----------

  /** Every channel has no key, or is of a known type and down. */
  ghost predicate PassesOn(plan: Plan, w: World, table: seq<K.ChannelKey>)
    requires Sound(plan)
  {
    forall r: nat :: r < |plan.routes| ==>
      !HasKey(table, plan.routes[r].channel)
      || (Supported(plan.routes[r].channelType) && forall n: nat, key: int :: n < 4 ==>
        ChannelFailed(w.reply(n, r, key).outcome))
  }

  lemma PassesTry(plan: Plan, w: World, pos: nat, n: nat, pool: K.Pool)
    requires Sound(plan) && pos < |Sequence(plan)| && n < 4 && PassesOn(plan, w, pool.table)
    ensures var (p, a) := Try(plan, w, pos, n, pool);
      && a.position == pos && a.route == Sequence(plan)[pos] && After(a) == NextChannel
      && Settle(w, n, p, a).table == pool.table
  {
    var route := plan.routes[Sequence(plan)[pos]];
    K.SelectionIsReady(pool, route.channel, route.balance, w.turn(n).draw);
    if Try(plan, w, pos, n, pool).1.selection.Picked? {
      var k :| k in pool.table && k.channel == route.channel;
      var i :| 0 <= i < |pool.table| && pool.table[i] == k;
    }
  }

  /** Attempt number i is at place i. */
  ghost predicate InTurn(plan: Plan, attempts: seq<Attempt>, n: nat) {
    && n + |attempts| == MaxAttempts(|plan.routes|)
    && forall i :: 0 <= i < |attempts| ==> attempts[i].position == n + i
  }

  lemma {:induction false} PassesFrom(plan: Plan, w: World, n: nat, pool: K.Pool, last: Ending)
    requires Sound(plan) && PassesOn(plan, w, pool.table) && n <= MaxAttempts(|plan.routes|)
    ensures InTurn(plan, ChatFrom(plan, w, n, n, pool, last).attempts, n)
    decreases MaxAttempts(|plan.routes|) - n
  {
    hide Try, Settle, ChatFrom, PassesOn;
    if n == MaxAttempts(|plan.routes|) {
      ChatOver(plan, w, n, n, pool, last);
    } else {
      PassesTry(plan, w, n, n, pool);
      ChatStep(plan, w, n, n, pool, last);
      var (p, a) := Try(plan, w, n, n, pool);
      var q := Settle(w, n, p, a);
      PassesFrom(plan, w, n + 1, q, EndingOf(plan, a));
      var rest := ChatFrom(plan, w, n + 1, n + 1, q, EndingOf(plan, a)).attempts;
      assert forall i :: 0 < i < |[a] + rest| ==> ([a] + rest)[i] == rest[i - 1];
    }
  }

  /** When every channel is down or has no key, the attempts go through the places in turn until they are spent. */
  lemma EverythingDown(plan: Plan, w: World, pool: K.Pool)
    requires Sound(plan) && PassesOn(plan, w, pool.table)
    ensures InTurn(plan, Chat(plan, w, pool).attempts, 0)
  {
    hide ChatFrom, PassesOn;
    PassesFrom(plan, w, 0, pool, NOT_FOUND);
  }

  const ONE_CHANNEL := [R.ChannelRow(1, "openai", true, "")]
  const NAME_AND_ALIAS := [R.ModelRow("m", "", true, 1, true), R.ModelRow("x", "m", true, 1, true)]

  /** A channel with a model of the asked name and another one of that alias gives two routes. */
  lemma TwoRoutes()
    ensures R.RoutesFor(ONE_CHANNEL, NAME_AND_ALIAS, "m") ==
      [Route(1, "", "openai", "m", true), Route(1, "", "openai", "x", true)]
  {
    var c := ONE_CHANNEL[0];
    assert NAME_AND_ALIAS[..1] == [NAME_AND_ALIAS[0]] && [NAME_AND_ALIAS[0]][..0] == [] && ONE_CHANNEL[..0] == [];
    assert R.RoutesIn(c, [], "m") == [];
    assert R.RoutesIn(c, [NAME_AND_ALIAS[0]], "m") == [Route(1, "", "openai", "m", true)];
    assert R.RoutesFor([], NAME_AND_ALIAS, "m") == [];
  }

  /** Without a key such a channel gets all four attempts, in every world. */
  lemma KeylessChannel(plan: Plan, w: World, pool: K.Pool, channel: int)
    requires Sound(plan) && |plan.routes| == 2 && !HasKey(pool.table, channel)
    requires plan.routes[0].channel == plan.routes[1].channel == channel
    ensures |Chat(plan, w, pool).attempts| == 4 && MoreThanTwo(plan, Chat(plan, w, pool).attempts, channel)
  {
    RunOrdered(plan, w, pool);
    EverythingDown(plan, w, pool);
    hide Chat, HasKey, PassesOn;
    var attempts := Chat(plan, w, pool).attempts;
    assert On(plan, attempts[0], channel) && On(plan, attempts[1], channel) && On(plan, attempts[2], channel);
  }

  // ---------- Routes share their channel's type ----------

  ghost predicate FromRow(r: Route, channels: seq<R.ChannelRow>) {
    exists i :: 0 <= i < |channels| && r.channel == channels[i].id && r.channelType == channels[i].channelType
  }

  lemma {:induction false} RoutesInOne(c: R.ChannelRow, models: seq<R.ModelRow>, name: string)
    ensures forall r :: r in R.RoutesIn(c, models, name) ==> r.channel == c.id && r.channelType == c.channelType
  {
    if |models| == 0 {
    } else {
      RoutesInOne(c, models[..|models| - 1], name);
    }
  }

  lemma {:induction false} RoutesFromRows(channels: seq<R.ChannelRow>, models: seq<R.ModelRow>, name: string)
    ensures forall r :: r in R.RoutesFor(channels, models, name) ==> FromRow(r, channels)
  {
    if |channels| == 0 {
    } else {
      var init, c := channels[..|channels| - 1], channels[|channels| - 1];
      RoutesFromRows(init, models, name);
      RoutesInOne(c, models, name);
      forall r | r in R.RoutesFor(channels, models, name)
        ensures FromRow(r, channels)
      {
        if r in R.RoutesFor(init, models, name) {
          var i :| 0 <= i < |init| && r.channel == init[i].id && r.channelType == init[i].channelType;
          assert channels[i] == init[i];
        } else {
          assert r in R.RoutesIn(c, models, name);
          assert channels[|channels| - 1] == c;
        }
      }
    }
  }

  /** Whatever a lookup finds, routes of one channel share its type. */
  lemma LookupSharesTypes(c: R.Config, rr: map<string, nat>, r: R.Request)
    requires forall i, j :: 0 <= i < j < |c.channels| ==> c.channels[i].id != c.channels[j].id
    requires R.Resolve(c, rr, r).Resolved?
    ensures SameTypes(R.Resolve(c, rr, r).plan)
  {
    var routes := R.RoutesFor(c.channels, c.models, R.Target(c, r));
    RoutesFromRows(c.channels, c.models, R.Target(c, r));
    forall i, j | 0 <= i < |routes| && 0 <= j < |routes| && routes[i].channel == routes[j].channel
      ensures routes[i].channelType == routes[j].channelType
    {
      assert FromRow(routes[i], c.channels) && FromRow(routes[j], c.channels);
    }
  }

  // ---------- One key is enough ----------

  const TWO := Plan([Route(1, "", "openai", "m", true), Route(2, "", "openai", "m", true)], [0, 1])

  const ONE_KEY_EACH := K.Pool([K.ChannelKey(1, 1, true, None), K.ChannelKey(2, 2, true, None)], map[], 60)

  /** The first channel is rate limited, the second fails; time stands still and cooldowns are stored. */
  function Plain(): World {
    World((n: nat) => Turn(K.Draw(true, 0, 0), 0, true),
          (n: nat, r: nat, key: int) => Reply([], if r == 0 then TOO_MANY else HttpError(500, "down")))
  }

  const COOLED := ONE_KEY_EACH.(table := [K.ChannelKey(1, 1, true, Some(60)), K.ChannelKey(2, 2, true, None)])

  lemma LeadLimited()
    ensures Sound(TWO) && |Sequence(TWO)| == 4
    ensures var (p, a) := Try(TWO, Plain(), 0, 0, ONE_KEY_EACH);
      a.route == 0 && After(a) == NextKey && Settle(Plain(), 0, p, a) == COOLED
  {
    hide K.AfterSelect;
    var d := Plain().turn(0).draw;
    var table := ONE_KEY_EACH.table;
    assert table[0].channel == 1 && Horizon(table) == 0 by {
      assert table[..1] == [table[0]] && [table[0]][..0] == [];
    }
    ReadyPicked(ONE_KEY_EACH, 1, "", d);
    K.SelectionIsReady(ONE_KEY_EACH, 1, "", d);
    RandomKeepsPool(ONE_KEY_EACH, 1, d);
    assert Sequence(TWO)[0] == 0;
    assert K.Cooled(table, 1, 60) == COOLED.table;
  }

  lemma RandomKeepsPool(pool: K.Pool, channel: int, d: K.Draw)
    ensures K.AfterSelect(pool, channel, "", d).0 == pool
  {
  }

  lemma LaterTry(pos: nat, n: nat)
    requires pos < 4
    ensures Sound(TWO) && |Sequence(TWO)| == 4
    ensures var (p, a) := Try(TWO, Plain(), pos, n, COOLED);
      a.route == pos % 2 && After(a) == NextChannel && Settle(Plain(), n, p, a) == COOLED
  {
    hide K.AfterSelect;
    var d := Plain().turn(n).draw;
    K.SelectionIsReady(COOLED, 1, "", d);
    RandomKeepsPool(COOLED, 1, d);
    RandomKeepsPool(COOLED, 2, d);
    assert Sequence(TWO) == [0, 1, 0, 1];
    var r := Sequence(TWO)[pos];
    assert r == pos % 2;
    var a := Try(TWO, Plain(), pos, n, COOLED).1;
    if r == 0 {
      assert COOLED.table[0] in COOLED.table && COOLED.table[0].channel == 1;
      assert forall k :: k in COOLED.table && k.channel == 1 ==> !K.Ready(k, d.now);
      assert a.selection.NoKey?;
    } else if a.selection.Picked? {
      assert a.outcome == Some(HttpError(500, "down"));
    }
  }

  /** With one key for each of two channels, the first of them rate limited, the first gets three attempts of four. */
  lemma OneKeyEach()
    ensures Sound(TWO)
    ensures var attempts := Chat(TWO, Plain(), ONE_KEY_EACH).attempts;
      |attempts| == 4 && attempts[0].route == attempts[1].route == attempts[3].route == 0 && attempts[2].route == 1
  {
    hide Try, Settle, ChatFrom, Plain, EndingOf;
    LeadLimited();
    LaterTry(0, 1);
    LaterTry(1, 2);
    LaterTry(2, 3);
    var w := Plain();
    var a0, a1 := Try(TWO, w, 0, 0, ONE_KEY_EACH).1, Try(TWO, w, 0, 1, COOLED).1;
    var a2, a3 := Try(TWO, w, 1, 2, COOLED).1, Try(TWO, w, 2, 3, COOLED).1;
    ChatStep(TWO, w, 0, 0, ONE_KEY_EACH, NOT_FOUND);
    ChatStep(TWO, w, 0, 1, COOLED, EndingOf(TWO, a0));
    ChatStep(TWO, w, 1, 2, COOLED, EndingOf(TWO, a1));
    ChatStep(TWO, w, 2, 3, COOLED, EndingOf(TWO, a2));
    ChatOver(TWO, w, 3, 4, COOLED, EndingOf(TWO, a3));
    assert Chat(TWO, w, ONE_KEY_EACH).attempts == [a0] + ([a1] + ([a2] + ([a3] + [])));
  }

  /** With one key for each of two channels, a 5xx of the first can be followed by two calls of the second. */
  lemma SecondRetry()
    ensures Sound(TWO)
    ensures ManyRetryCalls(Chat(TWO, Staged(ONE_KEY_EACH.table, 0, 1), ONE_KEY_EACH).attempts)
  {
    var table := ONE_KEY_EACH.table;
    assert Sequence(TWO) == [0, 1, 0, 1];
    assert table[0].channel == 1 && table[1].channel == 2;
    assert Open(TWO, table, 0) && Open(TWO, table, 1);
    hide Chat, Open, Failed, Called, Staged;
    Staging(TWO, 0, 1, ONE_KEY_EACH);
    var attempts := Chat(TWO, Staged(table, 0, 1), ONE_KEY_EACH).attempts;
    assert Failed(attempts[0]) && Called(attempts[1]) && Called(attempts[2]);
  }

  /** A sole channel that can be called is its own retry. */
  lemma SoleChannelRetries(plan: Plan, pool: K.Pool)
    requires Sound(plan) && |plan.routes| == 1 && Open(plan, pool.table, 0)
    ensures SameChannelRetry(plan, Chat(plan, Staged(pool.table, 0, 2), pool).attempts)
  {
    NeighboursMeaning(plan, 0);
    hide Chat, Open, Failed, Called, Staged;
    Staging(plan, 0, 2, pool);
    var attempts := Chat(plan, Staged(pool.table, 0, 2), pool).attempts;
    assert FailedOnSame(plan, attempts, 0);
  }
}
