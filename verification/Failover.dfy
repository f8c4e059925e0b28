/**
 The two dispatch loops of the router, attempt by attempt: which channel and key each attempt uses, what the
 answer leads to, and how the run ends. Upstreams, clock and random choices are an arbitrary world.
 */
module Failover {
  import opened Wrappers
  import opened Ir
  import opened Rotation
  import K = Keys

  datatype Route = Route(channel: int, balance: string, channelType: string, modelName: string, system: bool)

  predicate Supported(channelType: string) {
    channelType == "" || channelType == "openai" || channelType == "anthropic"
  }

  /** How one upstream call ends. Status 0 stands for a network error. */
  datatype Outcome =
    | Success(response: string)
    | UpstreamError(status: int, retryable: bool, message: string)
    | LocalError(message: string)

  /** The events a streaming call produces before it ends; a plain call has only the outcome. */
  datatype Reply = Reply(events: seq<StreamEvent>, outcome: Outcome)

  datatype Error =
    | ModelNotFound
    | RoutesUnavailable
    | NoUsableKey(reason: K.KeyError)
    | NotImplemented(channelType: string)
    | Failed(outcome: Outcome)

  /** What attempt number n meets besides the upstream: key selection, and the time and fate of a cooldown write. */
  datatype Turn = Turn(draw: K.Draw, markAt: int, markOk: bool)

  /** Replies may depend on the attempt number, the route and the key in any way. */
  datatype World = World(turn: nat -> Turn, reply: (nat, nat, int) -> Reply)

  datatype Plan = Plan(routes: seq<Route>, order: seq<nat>)

  predicate Sound(plan: Plan) {
    |plan.routes| > 0 && Permutation(plan.order, |plan.routes|)
  }

  /** Two rounds of the chosen order. */
  function Sequence(plan: Plan): (s: seq<nat>)
    requires Sound(plan)
    ensures |s| == 2 * |plan.routes|
    ensures forall i :: 0 <= i < |s| ==> s[i] < |plan.routes|
  {
    plan.order + plan.order
  }

  function MaxAttempts(n: nat): nat {
    if 2 * n > 4 then 4 else 2 * n
  }

  // ---------- One attempt ----------

  /** `position` is the place in the sequence; a call is made only when a key was picked for a supported channel. */
  datatype Attempt = Attempt(position: nat, route: nat, selection: K.Selection, outcome: Option<Outcome>)

  predicate RateLimited(o: Outcome) {
    o.UpstreamError? && (o.status == 429 || o.status == 401)
  }

  predicate ChannelFailed(o: Outcome) {
    o.UpstreamError? && !RateLimited(o) && o.retryable
  }

  /** What the dispatcher does next. */
  datatype Verdict = NextKey | NextChannel | Stop

  function After(a: Attempt): Verdict {
    if a.selection.NoKey? then NextChannel else
    if a.outcome.None? then Stop else
    if RateLimited(a.outcome.value) then NextKey else
    if ChannelFailed(a.outcome.value) then NextChannel else Stop
  }

  /** The reported channel and error, success being no error. */
  datatype Ending = Ending(channel: int, error: Option<Error>)

  function EndingOf(plan: Plan, a: Attempt): Ending
    requires a.route < |plan.routes|
  {
    var route := plan.routes[a.route];
    Ending(route.channel,
      match a.selection
      case NoKey(reason) => Some(NoUsableKey(reason))
      case Picked(_) =>
        if a.outcome.None? then Some(NotImplemented(route.channelType)) else
        if a.outcome.value.Success? then None else Some(Failed(a.outcome.value)))
  }

  /** Key selection and, unless it fails or the channel type is unknown, the call. */
  function Try(plan: Plan, w: World, pos: nat, n: nat, pool: K.Pool): (K.Pool, Attempt)
    requires Sound(plan) && pos < |Sequence(plan)|
  {
    var r := Sequence(plan)[pos];
    var route := plan.routes[r];
    var (p, s) := K.AfterSelect(pool, route.channel, route.balance, w.turn(n).draw);
    (p, Attempt(pos, r, s,
      if s.Picked? && Supported(route.channelType) then Some(w.reply(n, r, s.key).outcome) else None))
  }

  /** The pool after the attempt: a rate-limited key is put on cooldown. */
  function Settle(w: World, n: nat, p: K.Pool, a: Attempt): K.Pool {
    if After(a) == NextKey then K.AfterMark(p, a.selection.key, w.turn(n).markAt, w.turn(n).markOk) else p
  }

  // ---------- Whole runs ----------

  datatype Run = Run(attempts: seq<Attempt>, pool: K.Pool, ending: Ending, response: Option<string>)

  /** The loops of Chat from place `pos` of the sequence with `n` attempts made. */
  function ChatFrom(plan: Plan, w: World, pos: nat, n: nat, pool: K.Pool, last: Ending): Run
    requires Sound(plan)
    decreases MaxAttempts(|plan.routes|) - n
  {
    if pos >= |Sequence(plan)| || n >= MaxAttempts(|plan.routes|) then Run([], pool, last, None) else
    var (p, a) := Try(plan, w, pos, n, pool);
    var q := Settle(w, n, p, a);
    match After(a)
    case Stop =>
      Run([a], q, EndingOf(plan, a), Answer(a))
    case NextKey => Before(a, ChatFrom(plan, w, pos, n + 1, q, EndingOf(plan, a)))
    case NextChannel => Before(a, ChatFrom(plan, w, pos + 1, n + 1, q, EndingOf(plan, a)))
  }

  function Answer(a: Attempt): Option<string> {
    if a.outcome.Some? && a.outcome.value.Success? then Some(a.outcome.value.response) else None
  }

  function Before(a: Attempt, r: Run): Run {
    r.(attempts := [a] + r.attempts)
  }

  const NOT_FOUND := Ending(0, Some(ModelNotFound))

  function Chat(plan: Plan, w: World, pool: K.Pool): Run
    requires Sound(plan)
  {
    ChatFrom(plan, w, 0, 0, pool, NOT_FOUND)
  }

  // ---------- The streaming loop ----------

  /** A sink that may refuse an event, depending on everything it was handed so far, that event included. */
  type Sink = seq<StreamEvent> -> bool

  /** The events handed over from the i-th on, and whether the sink refused the last of them. */
  function Deliver(events: seq<StreamEvent>, sink: Sink, i: nat): (seq<StreamEvent>, bool)
    requires i <= |events|
    decreases |events| - i
  {
    if i == |events| then (events, false) else
    if !sink(events[..i + 1]) then (events[..i + 1], true) else Deliver(events, sink, i + 1)
  }

  /** What a streaming call hands over and how it ends: the sink's refusal is a local error. */
  function Streamed(r: Reply, sink: Sink): (seq<StreamEvent>, Outcome) {
    var (handed, refused) := Deliver(r.events, sink, 0);
    (handed, if refused then LocalError("emit failed") else r.outcome)
  }

  datatype StreamRun = StreamRun(attempts: seq<Attempt>, pool: K.Pool, ending: Ending, handed: seq<StreamEvent>)

  function StreamTry(plan: Plan, w: World, sink: Sink, pos: nat, n: nat, pool: K.Pool):
    (K.Pool, Attempt, seq<StreamEvent>)
    requires Sound(plan) && pos < |Sequence(plan)|
  {
    var r := Sequence(plan)[pos];
    var route := plan.routes[r];
    var (p, s) := K.AfterSelect(pool, route.channel, route.balance, w.turn(n).draw);
    if s.Picked? && Supported(route.channelType) then
      var (handed, o) := Streamed(w.reply(n, r, s.key), sink);
      (p, Attempt(pos, r, s, Some(o)), handed)
    else (p, Attempt(pos, r, s, None), [])
  }

  /** Once anything has been handed over, the run stops whatever the error. */
  function StreamAfter(a: Attempt, handed: seq<StreamEvent>): Verdict {
    if handed != [] then Stop else After(a)
  }

  function StreamSettle(w: World, n: nat, p: K.Pool, a: Attempt, handed: seq<StreamEvent>): K.Pool {
    if StreamAfter(a, handed) == NextKey then K.AfterMark(p, a.selection.key, w.turn(n).markAt, w.turn(n).markOk) else p
  }

  /** The loops of ChatStream, nothing having been handed over yet. */
  function StreamFrom(plan: Plan, w: World, sink: Sink, pos: nat, n: nat, pool: K.Pool, last: Ending): StreamRun
    requires Sound(plan)
    decreases MaxAttempts(|plan.routes|) - n
  {
    if pos >= |Sequence(plan)| || n >= MaxAttempts(|plan.routes|) then StreamRun([], pool, last, []) else
    var (p, a, handed) := StreamTry(plan, w, sink, pos, n, pool);
    var q := StreamSettle(w, n, p, a, handed);
    match StreamAfter(a, handed)
    case Stop => StreamRun([a], q, EndingOf(plan, a), handed)
    case NextKey => StreamBefore(a, StreamFrom(plan, w, sink, pos, n + 1, q, EndingOf(plan, a)))
    case NextChannel => StreamBefore(a, StreamFrom(plan, w, sink, pos + 1, n + 1, q, EndingOf(plan, a)))
  }

  function StreamBefore(a: Attempt, r: StreamRun): StreamRun {
    r.(attempts := [a] + r.attempts)
  }

  function ChatStream(plan: Plan, w: World, sink: Sink, pool: K.Pool): StreamRun
    requires Sound(plan)
  {
    StreamFrom(plan, w, sink, 0, 0, pool, NOT_FOUND)
  }

  lemma ChatOver(plan: Plan, w: World, pos: nat, n: nat, pool: K.Pool, last: Ending)
    requires Sound(plan) && !(pos < |Sequence(plan)| && n < MaxAttempts(|plan.routes|))
    ensures ChatFrom(plan, w, pos, n, pool, last) == Run([], pool, last, None)
  {
  }

  lemma StreamOver(plan: Plan, w: World, sink: Sink, pos: nat, n: nat, pool: K.Pool, last: Ending)
    requires Sound(plan) && !(pos < |Sequence(plan)| && n < MaxAttempts(|plan.routes|))
    ensures StreamFrom(plan, w, sink, pos, n, pool, last) == StreamRun([], pool, last, [])
  {
  }

  /** How the run goes on after its first attempt. */
  lemma ChatStep(plan: Plan, w: World, pos: nat, n: nat, pool: K.Pool, last: Ending)
    requires Sound(plan) && pos < |Sequence(plan)| && n < MaxAttempts(|plan.routes|)
    ensures var (p, a) := Try(plan, w, pos, n, pool);
      var q := Settle(w, n, p, a);
      var run := ChatFrom(plan, w, pos, n, pool, last);
      match After(a)
      case Stop => run == Run([a], q, EndingOf(plan, a), Answer(a))
      case NextKey => run == Before(a, ChatFrom(plan, w, pos, n + 1, q, EndingOf(plan, a)))
      case NextChannel => run == Before(a, ChatFrom(plan, w, pos + 1, n + 1, q, EndingOf(plan, a)))
  {
  }

  lemma StreamStep(plan: Plan, w: World, sink: Sink, pos: nat, n: nat, pool: K.Pool, last: Ending)
    requires Sound(plan) && pos < |Sequence(plan)| && n < MaxAttempts(|plan.routes|)
    ensures var (p, a, handed) := StreamTry(plan, w, sink, pos, n, pool);
      var q := StreamSettle(w, n, p, a, handed);
      var run := StreamFrom(plan, w, sink, pos, n, pool, last);
      match StreamAfter(a, handed)
      case Stop => run == StreamRun([a], q, EndingOf(plan, a), handed)
      case NextKey => run == StreamBefore(a, StreamFrom(plan, w, sink, pos, n + 1, q, EndingOf(plan, a)))
      case NextChannel => run == StreamBefore(a, StreamFrom(plan, w, sink, pos + 1, n + 1, q, EndingOf(plan, a)))
  {
  }

  // ---------- Shape of every run ----------

  /** Attempts walk the sequence from `pos`: a rate-limited key keeps the place, any other failure moves one on. */
  predicate Walks(plan: Plan, attempts: seq<Attempt>, pos: nat)
    requires Sound(plan)
  {
    |attempts| == 0 ||
    var a := attempts[0];
    && pos < |Sequence(plan)| && a.position == pos && a.route == Sequence(plan)[pos]
    && (|attempts| > 1 ==> After(a) != Stop)
    && Walks(plan, attempts[1..], if After(a) == NextKey then pos else pos + 1)
  }

  /** What every run from a given point looks like. */
  ghost predicate Shaped(plan: Plan, pos: nat, n: nat, pool: K.Pool, last: Ending, run: Run)
    requires Sound(plan)
  {
    && Walks(plan, run.attempts, pos)
    && n + |run.attempts| <= MaxAttempts(|plan.routes|)
    && (n + |run.attempts| < MaxAttempts(|plan.routes|) ==>
          run.attempts != [] && After(run.attempts[|run.attempts| - 1]) == Stop)
    && (run.attempts == [] ==> run.ending == last && run.pool == pool && run.response == None)
    && (run.attempts != [] ==> EndsWith(plan, run, run.attempts[|run.attempts| - 1]))
  }

  ghost predicate EndsWith(plan: Plan, run: Run, a: Attempt) {
    a.route < |plan.routes| && run.ending == EndingOf(plan, a) && (run.response.Some? <==> run.ending.error.None?)
  }

  lemma ShapeBefore(plan: Plan, pos: nat, n: nat, pool: K.Pool, last: Ending, a: Attempt, q: K.Pool, rest: Run)
    requires Sound(plan) && pos <= n < MaxAttempts(|plan.routes|)
    requires a.position == pos && a.route == Sequence(plan)[pos] && After(a) != Stop
    requires Shaped(plan, if After(a) == NextKey then pos else pos + 1, n + 1, q, EndingOf(plan, a), rest)
    ensures Shaped(plan, pos, n, pool, last, Before(a, rest))
  {
    var run := Before(a, rest);
    assert run.attempts[1..] == rest.attempts;
    if rest.attempts != [] {
      assert run.attempts[|run.attempts| - 1] == rest.attempts[|rest.attempts| - 1];
    } else {
      assert run.ending.error.Some?;
    }
  }

  lemma TryPlace(plan: Plan, w: World, pos: nat, n: nat, pool: K.Pool)
    requires Sound(plan) && pos < |Sequence(plan)|
    ensures var a := Try(plan, w, pos, n, pool).1; a.position == pos && a.route == Sequence(plan)[pos]
  {
  }

  lemma {:induction false} ChatShape(plan: Plan, w: World, pos: nat, n: nat, pool: K.Pool, last: Ending)
    requires Sound(plan) && pos <= n <= MaxAttempts(|plan.routes|)
    ensures Shaped(plan, pos, n, pool, last, ChatFrom(plan, w, pos, n, pool, last))
    decreases MaxAttempts(|plan.routes|) - n
  {
    hide Try, Settle, ChatFrom;
    if n < MaxAttempts(|plan.routes|) {
      ChatStep(plan, w, pos, n, pool, last);
      TryPlace(plan, w, pos, n, pool);
      var (p, a) := Try(plan, w, pos, n, pool);
      var q := Settle(w, n, p, a);
      if After(a) == Stop {
        assert Walks(plan, [a], pos);
      } else {
        var next := if After(a) == NextKey then pos else pos + 1;
        ChatShape(plan, w, next, n + 1, q, EndingOf(plan, a));
        ShapeBefore(plan, pos, n, pool, last, a, q, ChatFrom(plan, w, next, n + 1, q, EndingOf(plan, a)));
      }
    } else {
      ChatOver(plan, w, pos, n, pool, last);
    }
  }

  lemma {:induction false} WalksSteps(plan: Plan, attempts: seq<Attempt>, pos: nat, i: nat)
    requires Sound(plan) && Walks(plan, attempts, pos) && i < |attempts|
    ensures var a := attempts[i];
      && pos <= a.position < |Sequence(plan)| && a.route == Sequence(plan)[a.position]
      && (i < |attempts| - 1 ==>
            After(a) != Stop && attempts[i + 1].position == if After(a) == NextKey then a.position else a.position + 1)
  {
    if i == 0 {
    } else {
      WalksSteps(plan, attempts[1..], if After(attempts[0]) == NextKey then pos else pos + 1, i - 1);
    }
  }

  /** The same, attempt by attempt. */
  ghost predicate Steps(plan: Plan, attempts: seq<Attempt>, i: nat)
    requires Sound(plan) && i < |attempts|
  {
    var a := attempts[i];
    && a.position < |Sequence(plan)| && a.route == Sequence(plan)[a.position]
    && (i < |attempts| - 1 ==>
          After(a) != Stop && attempts[i + 1].position == if After(a) == NextKey then a.position else a.position + 1)
  }

  /** A walk of two rounds of the order that starts at its head and goes on until the budget is spent or it may stop. */
  ghost predicate Walked(plan: Plan, attempts: seq<Attempt>, mayStop: bool)
    requires Sound(plan)
  {
    && 1 <= |attempts| <= MaxAttempts(|plan.routes|) && attempts[0].position == 0
    && (forall i :: 0 <= i < |attempts| ==> Steps(plan, attempts, i))
    && (|attempts| == MaxAttempts(|plan.routes|) || mayStop)
  }

  /**
   Every run makes between one and min(2n, 4) attempts, walking two rounds of the order. It goes on until the
   attempts are spent or an answer is neither rate limiting nor a channel failure; such an answer is the last
   attempt and is returned as it is.
   */
  lemma AttemptsAndEnding(plan: Plan, w: World, pool: K.Pool)
    requires Sound(plan)
    ensures var run := Chat(plan, w, pool);
      && run.attempts != [] && Walked(plan, run.attempts, After(run.attempts[|run.attempts| - 1]) == Stop)
      && EndsWith(plan, run, run.attempts[|run.attempts| - 1])
      && run.ending.error != Some(ModelNotFound)
  {
    var attempts := Chat(plan, w, pool).attempts;
    ChatShape(plan, w, 0, 0, pool, NOT_FOUND);
    forall i | 0 <= i < |attempts|
      ensures Steps(plan, attempts, i)
    {
      WalksSteps(plan, attempts, 0, i);
    }
  }

  // ---------- Every streaming run is a plain run in another world ----------

  /** Calls without events that end as the streaming calls do; after an event every error is one that stops the run. */
  function Muted(w: World, sink: Sink): World {
    World(w.turn, (n: nat, r: nat, key: int) =>
      var (handed, o) := Streamed(w.reply(n, r, key), sink);
      Reply([], if handed == [] || o.Success? then o else LocalError("cut off")))
  }

  /** The same attempts, but for the outcome of the last one if events were handed over. */
  ghost predicate Follows(plan: Plan, c: Run, s: StreamRun) {
    && |s.attempts| == |c.attempts| && s.pool == c.pool
    && (s.handed == [] ==> s.attempts == c.attempts && s.ending == c.ending)
    && (s.handed != [] ==>
          var m := |c.attempts| - 1;
          && m >= 0 && s.attempts[..m] == c.attempts[..m] && After(c.attempts[m]) == Stop
          && s.attempts[m] == c.attempts[m].(outcome := s.attempts[m].outcome) && s.attempts[m].outcome.Some?
          && c.attempts[m].outcome.Some?
          && s.attempts[m].route < |plan.routes| && s.ending == EndingOf(plan, s.attempts[m]))
  }

  lemma TryMuted(plan: Plan, w: World, sink: Sink, pos: nat, n: nat, pool: K.Pool)
    requires Sound(plan) && pos < |Sequence(plan)|
    ensures var (p, a) := Try(plan, Muted(w, sink), pos, n, pool);
      var (q, b, handed) := StreamTry(plan, w, sink, pos, n, pool);
      && a.route < |plan.routes| && b.route == a.route && q == p && StreamAfter(b, handed) == After(a)
      && StreamSettle(w, n, q, b, handed) == Settle(Muted(w, sink), n, p, a)
      && b == a.(outcome := b.outcome) && (handed == [] ==> b == a)
      && (handed != [] ==> b.outcome.Some? && a.outcome.Some?)
  {
    var (p, a) := Try(plan, Muted(w, sink), pos, n, pool);
    if a.outcome.Some? {
      assert Streamed(w.reply(n, a.route, a.selection.key), sink).0 == [] ==>
        Muted(w, sink).reply(n, a.route, a.selection.key).outcome ==
            Streamed(w.reply(n, a.route, a.selection.key), sink).1;
    }
  }

  lemma FollowsBefore(plan: Plan, a: Attempt, c: Run, s: StreamRun)
    requires Follows(plan, c, s)
    ensures Follows(plan, Before(a, c), StreamBefore(a, s))
  {
    if s.handed != [] {
      var m := |c.attempts| - 1;
      assert ([a] + s.attempts)[..m + 1] == [a] + s.attempts[..m];
      assert ([a] + c.attempts)[..m + 1] == [a] + c.attempts[..m];
    }
  }

  lemma {:induction false} StreamIsMuted(plan: Plan, w: World, sink: Sink, pos: nat, n: nat, pool: K.Pool, last: Ending)
    requires Sound(plan)
    ensures Follows(plan, ChatFrom(plan, Muted(w, sink), pos, n, pool, last),
                    StreamFrom(plan, w, sink, pos, n, pool, last))
    decreases MaxAttempts(|plan.routes|) - n
  {
    hide Try, Settle, ChatFrom, StreamTry, StreamSettle, StreamFrom, EndingOf;
    var v := Muted(w, sink);
    if pos < |Sequence(plan)| && n < MaxAttempts(|plan.routes|) {
      TryMuted(plan, w, sink, pos, n, pool);
      ChatStep(plan, v, pos, n, pool, last);
      StreamStep(plan, w, sink, pos, n, pool, last);
      var (p, a) := Try(plan, v, pos, n, pool);
      if After(a) != Stop {
        var next := if After(a) == NextKey then pos else pos + 1;
        var q := Settle(v, n, p, a);
        StreamIsMuted(plan, w, sink, next, n + 1, q, EndingOf(plan, a));
        FollowsBefore(plan, a, ChatFrom(plan, v, next, n + 1, q, EndingOf(plan, a)),
                      StreamFrom(plan, w, sink, next, n + 1, q, EndingOf(plan, a)));
      }
    } else {
      ChatOver(plan, v, pos, n, pool, last);
      StreamOver(plan, w, sink, pos, n, pool, last);
    }
  }

  /** The same shape for every streaming run, in every world and with every sink; a run also stops after an event. */
  lemma StreamAttemptsAndEnding(plan: Plan, w: World, sink: Sink, pool: K.Pool)
    requires Sound(plan)
    ensures var run := ChatStream(plan, w, sink, pool);
      && run.attempts != []
      && var a := run.attempts[|run.attempts| - 1];
      && Walked(plan, run.attempts, run.handed != [] || After(a) == Stop)
      && a.route < |plan.routes| && run.ending == EndingOf(plan, a) && run.ending.error != Some(ModelNotFound)
  {
    StreamIsMuted(plan, w, sink, 0, 0, pool, NOT_FOUND);
    AttemptsAndEnding(plan, Muted(w, sink), pool);
    hide ChatFrom, StreamFrom, Muted;
    var c, s := Chat(plan, Muted(w, sink), pool), ChatStream(plan, w, sink, pool);
    forall i | 0 <= i < |s.attempts|
      ensures Steps(plan, s.attempts, i)
    {
      assert Steps(plan, c.attempts, i);
      SameSteps(plan, c, s, i);
    }
  }

  lemma SameSteps(plan: Plan, c: Run, s: StreamRun, i: nat)
    requires Sound(plan) && Follows(plan, c, s) && i < |c.attempts| && Steps(plan, c.attempts, i)
    ensures Steps(plan, s.attempts, i)
  {
    if s.handed != [] {
      var m := |c.attempts| - 1;
      assert forall k :: 0 <= k < m ==> s.attempts[k] == s.attempts[..m][k] && c.attempts[k] == c.attempts[..m][k];
    }
  }

  // ---------- What the adapters report ----------

  /** A request that cannot be serialised or built. */
  function RequestError(message: string): Outcome {
    UpstreamError(0, false, message)
  }

  /** A call or a stream that broke off in the network. */
  function NetworkError(message: string): Outcome {
    UpstreamError(0, true, message)
  }

  /** parseUpstreamError, for an HTTP answer outside 2xx. */
  function HttpError(status: int, message: string): Outcome {
    UpstreamError(status, status >= 500, message)
  }

  /** A 2xx answer to a plain call that cannot be decoded. */
  function UndecodableAnswer(message: string): Outcome {
    UpstreamError(0, true, message)
  }

  /** A line of a stream that cannot be decoded. */
  function UndecodableLine(message: string): Outcome {
    UpstreamError(0, false, message)
  }

  /** Attempt i is the last, and its outcome is the error returned. */
  ghost predicate EndsAt(attempts: seq<Attempt>, ending: Ending, i: nat, o: Outcome) {
    i == |attempts| - 1 && ending.error == Some(Failed(o))
  }

  /** While attempts are left there is a next one, `step` places on. */
  ghost predicate GoesOn(plan: Plan, attempts: seq<Attempt>, i: nat, step: nat)
    requires i < |attempts|
  {
    i + 1 < MaxAttempts(|plan.routes|) ==>
      i + 1 < |attempts| && attempts[i + 1].position == attempts[i].position + step
  }

  /**
   What each kind of failure leads to in a plain request: a bad request and HTTP errors below 500 end it and are
   returned as they are, 401 and 429 stay on the channel, and a 5xx, a network error or an answer that cannot be
   decoded goes on to the next channel.
   */
  lemma ErrorsOfChat(plan: Plan, w: World, pool: K.Pool, i: nat, message: string)
    requires Sound(plan) && i < |Chat(plan, w, pool).attempts|
    requires var a := Chat(plan, w, pool).attempts[i]; a.selection.Picked? && a.outcome.Some?
    ensures var run := Chat(plan, w, pool);
      var o := run.attempts[i].outcome.value;
      && (o == RequestError(message) ==> EndsAt(run.attempts, run.ending, i, o))
      && (o == NetworkError(message) || o == UndecodableAnswer(message) ==> GoesOn(plan, run.attempts, i, 1))
      && (o.UpstreamError? && o == HttpError(o.status, message) ==>
            if o.status == 401 || o.status == 429 then GoesOn(plan, run.attempts, i, 0) else
            if o.status >= 500 then GoesOn(plan, run.attempts, i, 1) else EndsAt(run.attempts, run.ending, i, o))
  {
    AttemptsAndEnding(plan, w, pool);
    hide Chat;
    assert Steps(plan, Chat(plan, w, pool).attempts, i);
  }

  /**
   The same for a streamed request, where a line that cannot be decoded ends it, and so does any error after an
   event.
   */
  lemma ErrorsOfChatStream(plan: Plan, w: World, sink: Sink, pool: K.Pool, i: nat, message: string)
    requires Sound(plan) && i < |ChatStream(plan, w, sink, pool).attempts|
    requires var a := ChatStream(plan, w, sink, pool).attempts[i]; a.selection.Picked? && a.outcome.Some?
    ensures var run := ChatStream(plan, w, sink, pool);
      var o := run.attempts[i].outcome.value;
      && (o == RequestError(message) || o == UndecodableLine(message) ==> EndsAt(run.attempts, run.ending, i, o))
      && (o == NetworkError(message) && run.handed == [] ==> GoesOn(plan, run.attempts, i, 1))
      && (o.UpstreamError? && o == HttpError(o.status, message) && run.handed == [] ==>
            if o.status == 401 || o.status == 429 then GoesOn(plan, run.attempts, i, 0) else
            if o.status >= 500 then GoesOn(plan, run.attempts, i, 1) else EndsAt(run.attempts, run.ending, i, o))
      && (run.handed != [] && i == |run.attempts| - 1 && !o.Success? ==> EndsAt(run.attempts, run.ending, i, o))
  {
    StreamAttemptsAndEnding(plan, w, sink, pool);
    hide ChatStream;
    assert Steps(plan, ChatStream(plan, w, sink, pool).attempts, i);
  }

  // ---------- ChatStream follows Chat ----------

  lemma {:induction false} DeliverAll(events: seq<StreamEvent>, sink: Sink, i: nat)
    requires i <= |events| && forall h :: sink(h)
    ensures Deliver(events, sink, i) == (events, false)
    decreases |events| - i
  {
    if i < |events| {
      DeliverAll(events, sink, i + 1);
    }
  }

  /** One attempt of each loop in the same situation. */
  lemma TryTogether(plan: Plan, w: World, sink: Sink, pos: nat, n: nat, pool: K.Pool)
    requires Sound(plan) && pos < |Sequence(plan)| && (forall h :: sink(h))
    requires forall i, r, k :: !w.reply(i, r, k).outcome.Success? ==> w.reply(i, r, k).events == []
    ensures var (p, a) := Try(plan, w, pos, n, pool);
      var (q, b, handed) := StreamTry(plan, w, sink, pos, n, pool);
      a.route < |plan.routes| && q == p && b == a && StreamAfter(b, handed) == After(a)
          && StreamSettle(w, n, q, b, handed) == Settle(w, n, p, a)
  {
    var (p, a) := Try(plan, w, pos, n, pool);
    if a.outcome.Some? {
      DeliverAll(w.reply(n, a.route, a.selection.key).events, sink, 0);
    }
  }

  /**
   In a world where failing calls produce no events, and with a sink that accepts everything, the streaming
   loop makes the same attempts, sets the same cooldowns and ends in the same way as the plain loop.
   */
  lemma {:induction false} StreamFollowsChat(plan: Plan, w: World, sink: Sink, pos: nat, n: nat, pool: K.Pool,
      last: Ending)
    requires Sound(plan) && (forall h :: sink(h))
    requires forall i, r, k :: !w.reply(i, r, k).outcome.Success? ==> w.reply(i, r, k).events == []
    ensures var c, s := ChatFrom(plan, w, pos, n, pool, last), StreamFrom(plan, w, sink, pos, n, pool, last);
      s.attempts == c.attempts && s.pool == c.pool && s.ending == c.ending
    decreases MaxAttempts(|plan.routes|) - n
  {
    hide Try, Settle, ChatFrom, StreamTry, StreamSettle, StreamFrom;
    if pos < |Sequence(plan)| && n < MaxAttempts(|plan.routes|) {
      TryTogether(plan, w, sink, pos, n, pool);
      ChatStep(plan, w, pos, n, pool, last);
      StreamStep(plan, w, sink, pos, n, pool, last);
      var (p, a) := Try(plan, w, pos, n, pool);
      if After(a) != Stop {
        StreamFollowsChat(plan, w, sink, if After(a) == NextKey then pos else pos + 1, n + 1,
                          Settle(w, n, p, a), EndingOf(plan, a));
      }
    } else {
      ChatOver(plan, w, pos, n, pool, last);
      StreamOver(plan, w, sink, pos, n, pool, last);
    }
  }

  lemma SimulationOfChat(plan: Plan, w: World, sink: Sink, pool: K.Pool)
    requires Sound(plan) && (forall h :: sink(h))
    requires forall i, r, k :: !w.reply(i, r, k).outcome.Success? ==> w.reply(i, r, k).events == []
    ensures var c, s := Chat(plan, w, pool), ChatStream(plan, w, sink, pool);
      s.attempts == c.attempts && s.pool == c.pool && s.ending == c.ending
  {
    StreamFollowsChat(plan, w, sink, 0, 0, pool, NOT_FOUND);
  }

  // ---------- One source for everything handed over ----------

  lemma {:induction false} DeliverPrefix(events: seq<StreamEvent>, sink: Sink, i: nat)
    requires i <= |events|
    ensures var (handed, refused) := Deliver(events, sink, i);
      && handed <= events && (handed == [] <==> events == []) && (!refused ==> handed == events)
    decreases |events| - i
  {
    if i < |events| && sink(events[..i + 1]) {
      DeliverPrefix(events, sink, i + 1);
    }
  }

  /** The events of the call made by attempt number n, if it made one. */
  function CallEvents(w: World, n: nat, a: Attempt): seq<StreamEvent> {
    if a.selection.Picked? && a.outcome.Some? then w.reply(n, a.route, a.selection.key).events else []
  }

  /** Everything handed over is a prefix of the last attempt's events, and no earlier call produced any. */
  ghost predicate SingleSource(w: World, n: nat, run: StreamRun) {
    && (run.attempts == [] ==> run.handed == [])
    && (run.attempts != [] ==>
          var m := |run.attempts| - 1;
          && run.handed <= CallEvents(w, n + m, run.attempts[m])
          && (run.ending.error.None? ==> run.handed == CallEvents(w, n + m, run.attempts[m]))
          && forall i :: 0 <= i < m ==> CallEvents(w, n + i, run.attempts[i]) == [])
  }

  lemma StreamTryEvents(plan: Plan, w: World, sink: Sink, pos: nat, n: nat, pool: K.Pool)
    requires Sound(plan) && pos < |Sequence(plan)|
    ensures var (p, a, handed) := StreamTry(plan, w, sink, pos, n, pool);
      && a.route < |plan.routes| && handed <= CallEvents(w, n, a) && (handed == [] <==> CallEvents(w, n, a) == [])
      && (EndingOf(plan, a).error.None? ==> handed == CallEvents(w, n, a))
      && (EndingOf(plan, a).error.None? ==> After(a) == Stop)
  {
    var (p, a, handed) := StreamTry(plan, w, sink, pos, n, pool);
    if a.outcome.Some? {
      DeliverPrefix(w.reply(n, a.route, a.selection.key).events, sink, 0);
    }
  }

  lemma {:induction false} StreamSingleSource(plan: Plan, w: World, sink: Sink, pos: nat, n: nat, pool: K.Pool,
      last: Ending)
    requires Sound(plan)
    ensures var run := StreamFrom(plan, w, sink, pos, n, pool, last);
      SingleSource(w, n, run) && (run.attempts == [] ==> run.ending == last)
    decreases MaxAttempts(|plan.routes|) - n
  {
    hide StreamTry, StreamSettle, StreamFrom, CallEvents;
    if pos < |Sequence(plan)| && n < MaxAttempts(|plan.routes|) {
      StreamStep(plan, w, sink, pos, n, pool, last);
      StreamTryEvents(plan, w, sink, pos, n, pool);
      var (p, a, handed) := StreamTry(plan, w, sink, pos, n, pool);
      var q := StreamSettle(w, n, p, a, handed);
      match StreamAfter(a, handed)
      case Stop =>
        assert SingleSource(w, n, StreamRun([a], q, EndingOf(plan, a), handed));
      case NextKey =>
        StreamSingleSource(plan, w, sink, pos, n + 1, q, EndingOf(plan, a));
        SourceBefore(w, n, a, StreamFrom(plan, w, sink, pos, n + 1, q, EndingOf(plan, a)));
      case NextChannel =>
        StreamSingleSource(plan, w, sink, pos + 1, n + 1, q, EndingOf(plan, a));
        SourceBefore(w, n, a, StreamFrom(plan, w, sink, pos + 1, n + 1, q, EndingOf(plan, a)));
    } else {
      StreamOver(plan, w, sink, pos, n, pool, last);
    }
  }

  lemma SourceBefore(w: World, n: nat, a: Attempt, rest: StreamRun)
    requires SingleSource(w, n + 1, rest) && CallEvents(w, n, a) == []
    requires rest.attempts == [] ==> rest.ending.error.Some?
    ensures SingleSource(w, n, StreamBefore(a, rest))
  {
    var run := StreamBefore(a, rest);
    assert run.attempts[0] == a;
    forall i | 0 <= i < |run.attempts| - 1
      ensures CallEvents(w, n + i, run.attempts[i]) == []
    {
      if i > 0 {
        assert run.attempts[i] == rest.attempts[i - 1];
        assert CallEvents(w, n + 1 + (i - 1), rest.attempts[i - 1]) == [];
      }
    }
  }

  /** In every streaming run, what the client was handed comes from one call, the last, in order from its start. */
  lemma EmissionHasOneSource(plan: Plan, w: World, sink: Sink, pool: K.Pool)
    requires Sound(plan)
    ensures SingleSource(w, 0, ChatStream(plan, w, sink, pool))
  {
    StreamSingleSource(plan, w, sink, 0, 0, pool, NOT_FOUND);
  }
}
