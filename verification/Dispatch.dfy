/**
 The two dispatch loops seen from outside: what every run consists of, attempt by attempt, in terms of the routes, the
 order, the key table and the upstreams' answers alone.
 */
module Dispatch {
  import opened Wrappers
  import opened Ir
  import opened Failover
  import opened Rotation
  import K = Keys

  // ---------- What an attempt leads to ----------

  /** The upstream limits the key: it gets a cooldown, and the next attempt stays with the channel. */
  predicate Limited(a: Attempt) {
    match a.outcome case Some(UpstreamError(status, _, _)) => status == 429 || status == 401 case _ => false
  }

  /** The channel has no usable key, or its answer is worth trying another channel. */
  predicate Moves(a: Attempt) {
    match a.selection
    case NoKey(_) => true
    case Picked(_) => match a.outcome case Some(UpstreamError(_, retryable, _)) => retryable
      && !Limited(a) case _ => false
  }

  /** The answer to the client after attempt a as the last one. */
  ghost predicate Ends(plan: Plan, a: Attempt, ending: Ending)
    requires a.route < |plan.routes|
  {
    && ending.channel == plan.routes[a.route].channel
    && match ending.error
       case None => a.outcome.Some? && a.outcome.value.Success?
       case Some(Failed(o)) => a.outcome == Some(o) && !o.Success?
       case Some(NoUsableKey(reason)) => a.selection == K.NoKey(reason)
       case Some(NotImplemented(t)) => a.selection.Picked? && a.outcome.None? && t == plan.routes[a.route].channelType
       case Some(_) => false
  }

  // ---------- One attempt ----------

  /** There is an adapter for these channel types; the empty one is a default. */
  predicate HasAdapter(channelType: string) {
    channelType in {"", "openai", "anthropic"}
  }

  /** Attempt i at its place of the order, its key selection, and whether it calls; the pool with the selection made. */
  ghost predicate Begins(plan: Plan, w: World, i: nat, pool: K.Pool, a: Attempt, selected: K.Pool)
    requires Sound(plan)
  {
    && a.position < 2 * |plan.routes| && a.route == plan.order[a.position % |plan.routes|]
    && var route := plan.routes[a.route];
    && (selected, a.selection) == K.AfterSelect(pool, route.channel, route.balance, w.turn(i).draw)
    && (a.outcome.Some? <==> a.selection.Picked? && HasAdapter(route.channelType))
  }

  /** The key that was limited is marked; nothing else is. */
  ghost predicate Marks(w: World, i: nat, selected: K.Pool, limited: bool, a: Attempt, after: K.Pool) {
    if limited && a.selection.Picked?
    then after == K.AfterMark(selected, a.selection.key, w.turn(i).markAt, w.turn(i).markOk)
    else after == selected
  }

  ghost predicate Called(plan: Plan, w: World, i: nat, pool: K.Pool, a: Attempt, after: K.Pool)
    requires Sound(plan)
  {
    exists selected ::
      && Begins(plan, w, i, pool, a, selected)
      && (a.outcome.Some? && a.selection.Picked? ==> a.outcome.value == w.reply(i, a.route, a.selection.key).outcome)
      && Marks(w, i, selected, Limited(a), a, after)
  }

  /** Delivery to a sink: event by event, up to the first one refused, which is an error of this side. */
  ghost predicate Delivered(r: Reply, sink: Sink, handed: seq<StreamEvent>, o: Outcome) {
    && handed <= r.events
    && (forall k :: 0 < k < |handed| ==> sink(handed[..k]))
    && if handed == [] || sink(handed) then handed == r.events && o == r.outcome else o.LocalError?
  }

  ghost predicate Streamed(
    plan: Plan, w: World, sink: Sink, i: nat, pool: K.Pool, a: Attempt, handed: seq<StreamEvent>, after: K.Pool)
    requires Sound(plan)
  {
    exists selected ::
      && Begins(plan, w, i, pool, a, selected)
      && (if a.outcome.Some? && a.selection.Picked?
          then Delivered(w.reply(i, a.route, a.selection.key), sink, handed, a.outcome.value) else handed == [])
      && Marks(w, i, selected, handed == [] && Limited(a), a, after)
  }

  // ---------- Whole runs ----------

  /** Places: two rounds of the order, and at most four attempts, going on exactly while an attempt says so. */
  ghost predicate Paced(plan: Plan, attempts: seq<Attempt>, stopped: bool) {
    var budget := if |plan.routes| == 1 then 2 else 4;
    && 0 < |attempts| <= budget && attempts[0].position == 0
    && (forall i :: 0 <= i < |attempts| - 1 ==> Onward(attempts[i], attempts[i + 1]))
    && var last := attempts[|attempts| - 1];
    && (|attempts| < budget ==> stopped || !(Limited(last) || Moves(last)))
  }

  predicate Onward(a: Attempt, b: Attempt) {
    if Limited(a) then b.position == a.position else Moves(a) && b.position == a.position + 1
  }

  lemma Verdicts(a: Attempt)
    requires a.selection.NoKey? ==> a.outcome.None?
    ensures After(a) == if Limited(a) then NextKey else if Moves(a) then NextChannel else Stop
  {
  }

  lemma Paces(plan: Plan, attempts: seq<Attempt>, mayStop: bool, stopped: bool)
    requires Sound(plan) && Walked(plan, attempts, mayStop)
    requires forall i :: 0 <= i < |attempts| && attempts[i].selection.NoKey? ==> attempts[i].outcome.None?
    requires mayStop ==> stopped || After(attempts[|attempts| - 1]) == Stop
    ensures Paced(plan, attempts, stopped)
  {
    forall i | 0 <= i < |attempts|
      ensures After(attempts[i]) ==
        if Limited(attempts[i]) then NextKey else if Moves(attempts[i]) then NextChannel else Stop
    {
      Verdicts(attempts[i]);
    }
    forall i | 0 <= i < |attempts| - 1
      ensures Onward(attempts[i], attempts[i + 1])
    {
      assert Steps(plan, attempts, i);
    }
  }

  lemma EndsLiterally(plan: Plan, a: Attempt)
    requires a.route < |plan.routes| && (a.selection.NoKey? ==> a.outcome.None?)
    ensures Ends(plan, a, EndingOf(plan, a))
  {
  }

  lemma OnceRound(pos: nat, n: nat)
    requires pos < 2 * n
    ensures pos % n == if pos < n then pos else pos - n
  {
    hide *;
    assert pos / n == if pos < n then 0 else 1;
  }

  lemma PlaceInOrder(plan: Plan, pos: nat)
    requires Sound(plan) && pos < |Sequence(plan)|
    ensures Sequence(plan)[pos] == plan.order[pos % |plan.routes|]
  {
    var n := |plan.routes|;
    OnceRound(pos, n);
    hide Permutation;
  }

  lemma TryCalls(plan: Plan, w: World, pos: nat, n: nat, pool: K.Pool)
    requires Sound(plan) && pos < |Sequence(plan)|
    ensures var (p, a) := Try(plan, w, pos, n, pool);
      Called(plan, w, n, pool, a, Settle(w, n, p, a)) && (a.selection.NoKey? ==> a.outcome.None?)
          && a.route < |plan.routes|
  {
    hide K.AfterSelect, K.AfterMark;
    PlaceInOrder(plan, pos);
    var (p, a) := Try(plan, w, pos, n, pool);
    Verdicts(a);
    assert Begins(plan, w, n, pool, a, p);
  }

  /** The pools between the attempts of a run. */
  ghost predicate Pools(plan: Plan, w: World, n: nat, pools: seq<K.Pool>, attempts: seq<Attempt>)
    requires Sound(plan)
  {
    |pools| == |attempts| + 1
    && forall i :: 0 <= i < |attempts| ==> Called(plan, w, n + i, pools[i], attempts[i], pools[i + 1])
  }

  lemma PoolsBefore(plan: Plan, w: World, n: nat, pool: K.Pool, a: Attempt, pools: seq<K.Pool>, attempts: seq<Attempt>)
    requires Sound(plan) && Pools(plan, w, n + 1, pools, attempts) && Called(plan, w, n, pool, a, pools[0])
    ensures Pools(plan, w, n, [pool] + pools, [a] + attempts)
  {
    hide Called;
    forall i | 0 <= i < |attempts| + 1
      ensures Called(plan, w, n + i, ([pool] + pools)[i], ([a] + attempts)[i], ([pool] + pools)[i + 1])
    {
      if i > 0 {
        assert n + i == n + 1 + (i - 1);
      }
    }
  }

  lemma {:induction false} Trace(plan: Plan, w: World, pos: nat, n: nat, pool: K.Pool, last: Ending)
    returns (pools: seq<K.Pool>)
    requires Sound(plan)
    ensures var run := ChatFrom(plan, w, pos, n, pool, last);
      Pools(plan, w, n, pools, run.attempts) && pools[0] == pool && pools[|run.attempts|] == run.pool
      && forall i :: 0 <= i < |run.attempts| && run.attempts[i].selection.NoKey? ==> run.attempts[i].outcome.None?
    decreases MaxAttempts(|plan.routes|) - n
  {
    hide Try, Settle, ChatFrom, Called, EndingOf;
    if pos < |Sequence(plan)| && n < MaxAttempts(|plan.routes|) {
      ChatStep(plan, w, pos, n, pool, last);
      TryCalls(plan, w, pos, n, pool);
      var (p, a) := Try(plan, w, pos, n, pool);
      var q := Settle(w, n, p, a);
      if After(a) == Stop {
        pools := [pool, q];
      } else {
        var next := if After(a) == NextKey then pos else pos + 1;
        var rest := Trace(plan, w, next, n + 1, q, EndingOf(plan, a));
        PoolsBefore(plan, w, n, pool, a, rest, ChatFrom(plan, w, next, n + 1, q, EndingOf(plan, a)).attempts);
        pools := [pool] + rest;
      }
    } else {
      ChatOver(plan, w, pos, n, pool, last);
      pools := [pool];
    }
  }

  /**
   Every plain run, for any routes, order, keys and upstreams: its attempts call as described, walk the order within
   the budget, leave the pool of the last one, and answer as the last one ended, with the text of a success.
   */
  lemma ChatMeaning(plan: Plan, w: World, pool: K.Pool) returns (pools: seq<K.Pool>)
    requires Sound(plan)
    ensures var run := Chat(plan, w, pool);
      var m := |run.attempts|;
      && Paced(plan, run.attempts, false)
      && Pools(plan, w, 0, pools, run.attempts) && pools[0] == pool && pools[m] == run.pool
      && var last := run.attempts[m - 1];
      && last.route < |plan.routes| && Ends(plan, last, run.ending)
      && match last.outcome
         case Some(Success(text)) => run.response == Some(text)
         case _ => run.response == None
  {
    AttemptsAndEnding(plan, w, pool);
    pools := Trace(plan, w, 0, 0, pool, NOT_FOUND);
    var run := Chat(plan, w, pool);
    AnswerIsText(plan, w, 0, 0, pool, NOT_FOUND);
    hide ChatFrom, Called;
    Paces(plan, run.attempts, After(run.attempts[|run.attempts| - 1]) == Stop, false);
    EndsLiterally(plan, run.attempts[|run.attempts| - 1]);
  }

  lemma {:induction false} AnswerIsText(plan: Plan, w: World, pos: nat, n: nat, pool: K.Pool, last: Ending)
    requires Sound(plan)
    ensures var run := ChatFrom(plan, w, pos, n, pool, last);
      run.response == if run.attempts == [] then None else Answer(run.attempts[|run.attempts| - 1])
    decreases MaxAttempts(|plan.routes|) - n
  {
    hide Try, Settle, ChatFrom, EndingOf;
    if pos < |Sequence(plan)| && n < MaxAttempts(|plan.routes|) {
      ChatStep(plan, w, pos, n, pool, last);
      TryCalls(plan, w, pos, n, pool);
      var (p, a) := Try(plan, w, pos, n, pool);
      if After(a) != Stop {
        AnswerIsText(plan, w, if After(a) == NextKey then pos else pos + 1, n + 1, Settle(w, n, p, a),
            EndingOf(plan, a));
      }
    } else {
      ChatOver(plan, w, pos, n, pool, last);
    }
  }

  // ---------- Streaming runs ----------

  lemma {:induction false} DeliversTo(events: seq<StreamEvent>, sink: Sink, i: nat)
    requires i <= |events| && forall k :: 0 < k <= i ==> sink(events[..k])
    ensures var (handed, refused) := Deliver(events, sink, i);
      && handed <= events && (forall k :: 0 < k < |handed| ==> sink(handed[..k]))
      && (if refused then handed != [] && !sink(handed) else handed == events && (handed == [] || sink(handed)))
    decreases |events| - i
  {
    if i == |events| {
      assert events[..i] == events;
    } else if sink(events[..i + 1]) {
      DeliversTo(events, sink, i + 1);
    } else {
      var handed := events[..i + 1];
      assert forall k :: 0 < k < |handed| ==> handed[..k] == events[..k];
    }
  }

  lemma TryStreams(plan: Plan, w: World, sink: Sink, pos: nat, n: nat, pool: K.Pool)
    requires Sound(plan) && pos < |Sequence(plan)|
    ensures var (p, a, handed) := StreamTry(plan, w, sink, pos, n, pool);
      && Streamed(plan, w, sink, n, pool, a, handed, StreamSettle(w, n, p, a, handed))
      && (a.selection.NoKey? ==> a.outcome.None?) && a.route < |plan.routes|
  {
    hide K.AfterSelect, K.AfterMark;
    PlaceInOrder(plan, pos);
    var (p, a, handed) := StreamTry(plan, w, sink, pos, n, pool);
    Verdicts(a);
    assert Begins(plan, w, n, pool, a, p);
    if a.outcome.Some? {
      DeliversTo(w.reply(n, a.route, a.selection.key).events, sink, 0);
    }
  }

  /** The pools between the attempts; only the last attempt hands anything over. */
  ghost predicate StreamPools(
    plan: Plan, w: World, sink: Sink, n: nat, pools: seq<K.Pool>, attempts: seq<Attempt>, handed: seq<StreamEvent>)
    requires Sound(plan)
  {
    |pools| == |attempts| + 1 && (attempts == [] ==> handed == [])
    && forall i :: 0 <= i < |attempts| ==>
         Streamed(plan, w, sink, n + i, pools[i], attempts[i], if i == |attempts| - 1 then handed else [], pools[i + 1])
  }

  lemma StreamPoolsBefore(plan: Plan, w: World, sink: Sink, n: nat, pool: K.Pool, a: Attempt, pools: seq<K.Pool>,
      attempts: seq<Attempt>, handed: seq<StreamEvent>)
    requires Sound(plan) && StreamPools(plan, w, sink, n + 1, pools, attempts, handed)
    requires Streamed(plan, w, sink, n, pool, a, [], pools[0])
    ensures StreamPools(plan, w, sink, n, [pool] + pools, [a] + attempts, handed)
  {
    hide Streamed;
    forall i | 0 <= i < |attempts| + 1
      ensures Streamed(plan, w, sink, n + i, ([pool] + pools)[i], ([a] + attempts)[i],
                       if i == |attempts| then handed else [], ([pool] + pools)[i + 1])
    {
      if i > 0 {
        assert n + i == n + 1 + (i - 1);
      }
    }
  }

  lemma {:induction false} StreamTrace(
    plan: Plan, w: World, sink: Sink, pos: nat, n: nat, pool: K.Pool, last: Ending) returns (pools: seq<K.Pool>)
    requires Sound(plan)
    ensures var run := StreamFrom(plan, w, sink, pos, n, pool, last);
      && StreamPools(plan, w, sink, n, pools, run.attempts, run.handed)
      && |pools| == |run.attempts| + 1 && pools[0] == pool && pools[|run.attempts|] == run.pool
      && forall i :: 0 <= i < |run.attempts| && run.attempts[i].selection.NoKey? ==> run.attempts[i].outcome.None?
    decreases MaxAttempts(|plan.routes|) - n
  {
    hide StreamTry, StreamSettle, StreamFrom, Streamed, EndingOf;
    if pos < |Sequence(plan)| && n < MaxAttempts(|plan.routes|) {
      StreamStep(plan, w, sink, pos, n, pool, last);
      TryStreams(plan, w, sink, pos, n, pool);
      var (p, a, handed) := StreamTry(plan, w, sink, pos, n, pool);
      var q := StreamSettle(w, n, p, a, handed);
      if StreamAfter(a, handed) == Stop {
        pools := [pool, q];
      } else {
        var next := if StreamAfter(a, handed) == NextKey then pos else pos + 1;
        var rest := StreamTrace(plan, w, sink, next, n + 1, q, EndingOf(plan, a));
        var run := StreamFrom(plan, w, sink, next, n + 1, q, EndingOf(plan, a));
        StreamPoolsBefore(plan, w, sink, n, pool, a, rest, run.attempts, run.handed);
        pools := [pool] + rest;
      }
    } else {
      StreamOver(plan, w, sink, pos, n, pool, last);
      pools := [pool];
    }
  }

  /** The same for every streaming run and sink. A run also stops once something was handed over. */
  lemma ChatStreamMeaning(plan: Plan, w: World, sink: Sink, pool: K.Pool) returns (pools: seq<K.Pool>)
    requires Sound(plan)
    ensures var run := ChatStream(plan, w, sink, pool);
      var m := |run.attempts|;
      && Paced(plan, run.attempts, run.handed != [])
      && StreamPools(plan, w, sink, 0, pools, run.attempts, run.handed)
      && |pools| == m + 1 && pools[0] == pool && pools[m] == run.pool
      && var last := run.attempts[m - 1];
      && last.route < |plan.routes| && Ends(plan, last, run.ending)
  {
    StreamAttemptsAndEnding(plan, w, sink, pool);
    pools := StreamTrace(plan, w, sink, 0, 0, pool, NOT_FOUND);
    var run := ChatStream(plan, w, sink, pool);
    hide StreamFrom, StreamPools, Ends;
    var last := run.attempts[|run.attempts| - 1];
    Paces(plan, run.attempts, run.handed != [] || After(last) == Stop, run.handed != []);
    EndsLiterally(plan, last);
  }
}
