/**
 The router object: model redirection, route lookup, channel order, and the two dispatch loops, each proved
 to do what the run functions of Failover say.
 */
module Router {
  import opened Wrappers
  import opened Ir
  import opened Rotation
  import opened Places
  import opened Failover
  import K = Keys

  // ---------- Route lookup ----------

  datatype ModelRow = ModelRow(name: string, alias: string, enabled: bool, channel: int, system: bool)

  /** Channels in id order. */
  datatype ChannelRow = ChannelRow(id: int, channelType: string, active: bool, balance: string)

  predicate Serves(m: ModelRow, c: ChannelRow, name: string) {
    && m.channel == c.id && m.enabled && c.active
    && (m.name == name || (m.alias != "" && m.alias == name))
  }

  function RoutesIn(c: ChannelRow, models: seq<ModelRow>, name: string): seq<Route> {
    if |models| == 0 then [] else
    var m := models[|models| - 1];
    RoutesIn(c, models[..|models| - 1], name)
    + (if Serves(m, c, name) then [Route(c.id, c.balance, c.channelType, m.name, m.system)] else [])
  }

  /** ListChannelsByModel. */
  function RoutesFor(channels: seq<ChannelRow>, models: seq<ModelRow>, name: string): seq<Route> {
    if |channels| == 0 then [] else
    RoutesFor(channels[..|channels| - 1], models, name) + RoutesIn(channels[|channels| - 1], models, name)
  }

  lemma {:induction false} RoutesInEmpty(c: ChannelRow, models: seq<ModelRow>, name: string)
    ensures RoutesIn(c, models, name) == [] <==> forall m :: m in models ==> !Serves(m, c, name)
  {
    if |models| == 0 {
    } else {
      RoutesInEmpty(c, models[..|models| - 1], name);
      assert models == models[..|models| - 1] + [models[|models| - 1]];
    }
  }

  lemma {:induction false} RoutesForEmpty(channels: seq<ChannelRow>, models: seq<ModelRow>, name: string)
    ensures RoutesFor(channels, models, name) == [] <==>
      forall c, m :: c in channels && m in models ==> !Serves(m, c, name)
  {
    if |channels| == 0 {
    } else {
      RoutesForEmpty(channels[..|channels| - 1], models, name);
      RoutesInEmpty(channels[|channels| - 1], models, name);
      assert channels == channels[..|channels| - 1] + [channels[|channels| - 1]];
    }
  }

  function Redirected(redirects: map<string, string>, model: string): string {
    if model in redirects && redirects[model] != "" then redirects[model] else model
  }

  // ---------- Channel order ----------

  function Swap(s: seq<nat>, i: nat, j: nat): (r: seq<nat>)
    requires i < |s| && j < |s|
    ensures |r| == |s|
  {
    s[i := s[j]][j := s[i]]
  }

  /** rand.Shuffle from place i down to 1; `pick` is the source of randomness. */
  function Shuffled(s: seq<nat>, i: nat, pick: nat -> nat): (r: seq<nat>)
    requires i < |s| || s == []
    ensures |r| == |s|
    decreases i
  {
    if i == 0 || s == [] then s else Shuffled(Swap(s, i, pick(i) % (i + 1)), i - 1, pick)
  }

  function Identity(n: nat): (r: seq<nat>)
    ensures |r| == n
  {
    seq(n, i => i)
  }

  /** A sequence read round from `start`. */
  function Round(p: seq<nat>, start: nat): (r: seq<nat>)
    requires |p| > 0
    ensures |r| == |p|
  {
    seq(|p|, k => p[(start + k) % |p|])
  }

  lemma ReadIdentity(n: nat, start: nat)
    requires n > 0
    ensures Round(Identity(n), start) == Rotated(start, n)
  {
  }

  lemma ReadFromZero(p: seq<nat>)
    requires |p| > 0
    ensures Round(p, 0) == p
  {
    forall k | 0 <= k < |p|
      ensures Round(p, 0)[k] == p[k]
    {
      SmallModulus(k, |p|);
    }
  }

  function Counter(rr: map<string, nat>, model: string): nat {
    if model in rr then rr[model] else 0
  }

  function OrderOf(strategy: string, rr: map<string, nat>, model: string, n: nat, pick: nat -> nat): seq<nat>
    requires n > 0
  {
    if strategy == "round_robin" then Rotated(Counter(rr, model) % n, n) else Shuffled(Identity(n), n - 1, pick)
  }

  function AfterOrder(strategy: string, rr: map<string, nat>, model: string): map<string, nat> {
    if strategy == "round_robin" then rr[model := Counter(rr, model) + 1] else rr
  }

  lemma SwapKeepsPermutation(s: seq<nat>, i: nat, j: nat)
    requires i < |s| && j < |s| && Permutation(s, |s|)
    ensures Permutation(Swap(s, i, j), |s|)
  {
  }

  lemma {:induction false} ShuffleKeepsPermutation(s: seq<nat>, i: nat, pick: nat -> nat)
    requires i < |s| && Permutation(s, |s|)
    ensures Permutation(Shuffled(s, i, pick), |s|)
    decreases i
  {
    if i == 0 {
    } else {
      SwapKeepsPermutation(s, i, pick(i) % (i + 1));
      ShuffleKeepsPermutation(Swap(s, i, pick(i) % (i + 1)), i - 1, pick);
    }
  }

  /** Whatever the strategy and the random choices, every channel is in the order exactly once. */
  lemma OrderIsPermutation(strategy: string, rr: map<string, nat>, model: string, n: nat, pick: nat -> nat)
    requires n > 0
    ensures Permutation(OrderOf(strategy, rr, model, n, pick), n)
  {
    RotatedIsPermutation(Counter(rr, model) % n, n);
    ShuffleKeepsPermutation(Identity(n), n - 1, pick);
  }

  lemma {:induction false} PickBelow(s: seq<nat>, i: nat, p: nat -> nat, q: nat -> nat)
    requires i < |s| && forall k: nat :: k <= i ==> p(k) == q(k)
    ensures Shuffled(s, i, p) == Shuffled(s, i, q)
    decreases i
  {
    if i > 0 {
      PickBelow(Swap(s, i, p(i) % (i + 1)), i - 1, p, q);
    }
  }

  /** The place in one permutation of what another has at place i, if they agree above i. */
  lemma PlaceOf(s: seq<nat>, t: seq<nat>, i: nat) returns (j: nat)
    requires Permutation(s, |s|) && Permutation(t, |s|) && i < |s|
    requires forall k :: i < k < |s| ==> s[k] == t[k]
    ensures j <= i && s[j] == t[i]
  {
    PermutationContains(s, |s|, t[i]);
    j :| 0 <= j < |s| && s[j] == t[i];
  }

  lemma SwapAgrees(s: seq<nat>, t: seq<nat>, i: nat, j: nat)
    requires i < |s| == |t| && j <= i && s[j] == t[i] && Permutation(s, |s|)
    requires forall k :: i < k < |s| ==> s[k] == t[k]
    ensures Permutation(Swap(s, i, j), |s|) && forall k :: i <= k < |s| ==> Swap(s, i, j)[k] == t[k]
  {
    SwapKeepsPermutation(s, i, j);
    hide Permutation;
  }

  lemma NothingToShuffle(s: seq<nat>, pick: nat -> nat)
    requires s != []
    ensures Shuffled(s, 0, pick) == s
  {
  }

  lemma ShuffleStep(s: seq<nat>, i: nat, j: nat, pick: nat -> nat, rest: nat -> nat)
    requires 0 < i < |s| && j <= i && pick(i) == j && forall k: nat :: k < i ==> pick(k) == rest(k)
    ensures Shuffled(s, i, pick) == Shuffled(Swap(s, i, j), i - 1, rest)
  {
    SmallModulus(j, i + 1);
    PickBelow(Swap(s, i, j), i - 1, pick, rest);
  }

  lemma {:induction false} ShuffleReaches(s: seq<nat>, t: seq<nat>, i: nat) returns (pick: nat -> nat)
    requires i < |s| == |t| && Permutation(s, |s|) && Permutation(t, |s|)
    requires forall k :: i < k < |s| ==> s[k] == t[k]
    ensures Shuffled(s, i, pick) == t
    decreases i
  {
    hide Permutation, Swap, Shuffled;
    var j := PlaceOf(s, t, i);
    if i == 0 {
      pick := k => 0;
      NothingToShuffle(s, pick);
      assert s == t;
    } else {
      var next := Swap(s, i, j);
      SwapAgrees(s, t, i, j);
      var rest := ShuffleReaches(next, t, i - 1);
      pick := k => if k == i then j else rest(k);
      ShuffleStep(s, i, j, pick, rest);
    }
  }

  /** Under the random strategy every order of the channels can come out. */
  lemma EveryOrderIsPossible(strategy: string, rr: map<string, nat>, model: string, order: seq<nat>)
    returns (pick: nat -> nat)
    requires |order| > 0 && Permutation(order, |order|) && strategy != "round_robin"
    ensures OrderOf(strategy, rr, model, |order|, pick) == order
  {
    pick := ShuffleReaches(Identity(|order|), order, |order| - 1);
  }

  lemma SmallModulus(x: nat, n: nat)
    requires x < n
    ensures x % n == x && (x + 0) % n == x
  {
  }

  // ---------- Resolution ----------

  datatype Resolution = Resolved(plan: Plan) | Unresolved(error: Error)

  datatype Config = Config(
    strategy: string, redirects: map<string, string>, channels: seq<ChannelRow>, models: seq<ModelRow>)

  /** What a request meets before its first attempt: whether the routes can be read, and the shuffle. */
  datatype Request = Request(model: string, readOk: bool, pick: nat -> nat)

  function Target(c: Config, r: Request): string {
    Redirected(c.redirects, r.model)
  }

  function Resolve(c: Config, rr: map<string, nat>, r: Request): Resolution {
    if !r.readOk then Unresolved(RoutesUnavailable) else
    var routes := RoutesFor(c.channels, c.models, Target(c, r));
    if |routes| == 0 then Unresolved(ModelNotFound) else
    Resolved(Plan(routes, OrderOf(c.strategy, rr, Target(c, r), |routes|, r.pick)))
  }

  function RrAfter(c: Config, rr: map<string, nat>, r: Request): map<string, nat> {
    if Resolve(c, rr, r).Resolved? then AfterOrder(c.strategy, rr, Target(c, r)) else rr
  }

  lemma ResolvedIsSound(c: Config, rr: map<string, nat>, r: Request)
    ensures var s := Resolve(c, rr, r); s.Resolved? ==> Sound(s.plan)
    ensures Resolve(c, rr, r) == Unresolved(ModelNotFound) <==>
      (r.readOk && forall ch, m :: ch in c.channels && m in c.models ==> !Serves(m, ch, Target(c, r)))
  {
    var routes := RoutesFor(c.channels, c.models, Target(c, r));
    RoutesForEmpty(c.channels, c.models, Target(c, r));
    if |routes| > 0 {
      OrderIsPermutation(c.strategy, rr, Target(c, r), |routes|, r.pick);
    }
  }

  // ---------- Fairness ----------

  /** Requests resolved one after the other, each with the counters that the one before it left. */
  function ResolveAll(c: Config, rr: map<string, nat>, rs: seq<Request>): (r: (seq<Resolution>, map<string, nat>))
    ensures |r.0| == |rs|
  {
    if |rs| == 0 then ([], rr) else
    var (before, counters) := ResolveAll(c, rr, rs[..|rs| - 1]);
    var last := rs[|rs| - 1];
    (before + [Resolve(c, counters, last)], RrAfter(c, counters, last))
  }

  /** The channels that come first in the resolved orders of one model, in order of arrival. */
  function FirstPlaces(c: Config, rs: seq<Request>, resolved: seq<Resolution>, model: string): seq<nat>
    requires |rs| == |resolved|
  {
    if |rs| == 0 then [] else
    var n := |rs| - 1;
    FirstPlaces(c, rs[..n], resolved[..n], model)
    + (if Target(c, rs[n]) == model then First(resolved[n]) else [])
  }

  function First(r: Resolution): seq<nat> {
    if r.Resolved? && r.plan.order != [] then [r.plan.order[0]] else []
  }

  /** The requests for a model whose routes could be read. */
  function Asked(c: Config, rs: seq<Request>, model: string): nat {
    if |rs| == 0 then 0 else
    Asked(c, rs[..|rs| - 1], model)
    + (if Target(c, rs[|rs| - 1]) == model && rs[|rs| - 1].readOk then 1 else 0)
  }

  lemma {:induction false} PlacesWalk(c: Config, rr: map<string, nat>, rs: seq<Request>, model: string)
    requires c.strategy == "round_robin" && RoutesFor(c.channels, c.models, model) != []
    ensures var (resolved, after) := ResolveAll(c, rr, rs);
      var n, firsts := |RoutesFor(c.channels, c.models, model)|, FirstPlaces(c, rs, resolved, model);
      && |firsts| == Asked(c, rs, model) && Counter(after, model) == Counter(rr, model) + |firsts|
      && forall i :: 0 <= i < |firsts| ==> firsts[i] == (Counter(rr, model) + i) % n
  {
    hide RoutesFor;
    if |rs| == 0 {
    } else {
      var init, last := rs[..|rs| - 1], rs[|rs| - 1];
      PlacesWalk(c, rr, init, model);
      var (before, counters) := ResolveAll(c, rr, init);
      assert ResolveAll(c, rr, rs).0[..|rs| - 1] == before;
      OneMore(c, counters, last, model);
    }
  }

  /** One request under round robin, seen from one model's counter. */
  lemma OneMore(c: Config, rr: map<string, nat>, r: Request, model: string)
    requires c.strategy == "round_robin" && RoutesFor(c.channels, c.models, model) != []
    ensures var n := |RoutesFor(c.channels, c.models, model)|;
      if Target(c, r) == model && r.readOk then
        && First(Resolve(c, rr, r)) == [Counter(rr, model) % n]
        && Counter(RrAfter(c, rr, r), model) == Counter(rr, model) + 1
      else
        && (Target(c, r) == model ==> First(Resolve(c, rr, r)) == [])
        && Counter(RrAfter(c, rr, r), model) == Counter(rr, model)
  {
    hide RoutesFor;
    if Target(c, r) == model && r.readOk {
      var n := |RoutesFor(c.channels, c.models, model)|;
      SmallModulus(Counter(rr, model) % n, n);
      var order := Resolve(c, rr, r).plan.order;
      assert order[0] == Counter(rr, model) % n;
    }
  }

  /**
   Round robin is fair. Whatever requests come in, for other models and failing ones among them: each readable request
   for a model resolves, and any n of these in a row, n being the number of its channels, lead with each of the
   channels once.
   */
  lemma RoundRobinIsFair(c: Config, rr: map<string, nat>, rs: seq<Request>, model: string, from: nat)
    requires c.strategy == "round_robin" && RoutesFor(c.channels, c.models, model) != []
    requires from + |RoutesFor(c.channels, c.models, model)| <= Asked(c, rs, model)
    ensures var n := |RoutesFor(c.channels, c.models, model)|;
      var firsts := FirstPlaces(c, rs, ResolveAll(c, rr, rs).0, model);
      |firsts| == Asked(c, rs, model) && Permutation(firsts[from..from + n], n)
  {
    hide ResolveAll, FirstPlaces, Asked, RoutesFor;
    var n := |RoutesFor(c.channels, c.models, model)|;
    var firsts := FirstPlaces(c, rs, ResolveAll(c, rr, rs).0, model);
    PlacesWalk(c, rr, rs, model);
    RotatedIsPermutation(Counter(rr, model) + from, n);
    assert firsts[from..from + n] == Rotated(Counter(rr, model) + from, n);
  }

  /** Under round robin the other channels follow the first one in a circle. */
  lemma RoundRobinGoesRound(c: Config, rr: map<string, nat>, r: Request, k: nat)
    requires c.strategy == "round_robin" && Resolve(c, rr, r).Resolved?
    requires k < |Resolve(c, rr, r).plan.routes|
    ensures var plan := Resolve(c, rr, r).plan;
      |plan.order| == |plan.routes| && plan.order[k] == (plan.order[0] + k) % |plan.routes|
  {
    hide RoutesFor;
    var n := |Resolve(c, rr, r).plan.routes|;
    var start := Counter(rr, Target(c, r)) % n;
    SmallModulus(start, n);
    assert Resolve(c, rr, r).plan.order == Rotated(start, n);
  }

  // ---------- What the routes are ----------

  /** A model row of a channel row can take the request; places count channels first. */
  predicate Match(c: Config, name: string, at: (nat, nat)) {
    && at.0 < |c.channels| && at.1 < |c.models|
    && var ch, m := c.channels[at.0], c.models[at.1];
    && ch.active && m.enabled && m.channel == ch.id
    && (m.name == name || (m.alias == name && name != ""))
  }

  /** These routes come from these places, in their order. */
  ghost predicate RoutesAt(c: Config, places: seq<(nat, nat)>, routes: seq<Route>) {
    && |routes| == |places|
    && InOrder(places)
    && forall i :: 0 <= i < |places| ==> RouteAt(c, places[i], routes[i])
  }

  predicate RouteAt(c: Config, at: (nat, nat), route: Route) {
    && at.0 < |c.channels| && at.1 < |c.models|
    && var ch, m := c.channels[at.0], c.models[at.1];
    && route.channel == ch.id && route.balance == ch.balance && route.channelType == ch.channelType
    && route.modelName == m.name && route.system == m.system
  }

  /** The places before the j-th model of the i-th channel. */
  ghost predicate Found(c: Config, name: string, places: seq<(nat, nat)>, i: nat, j: nat) {
    forall p: (nat, nat) :: p in places <==> Match(c, name, p) && Earlier(p, (i, j))
  }

  lemma {:induction false} PlacesIn(c: Config, name: string, i: nat, j: nat, before: seq<(nat, nat)>,
      routes: seq<Route>)
    returns (places: seq<(nat, nat)>)
    requires i < |c.channels| && j <= |c.models|
    requires Found(c, name, before, i, 0) && RoutesAt(c, before, routes)
    ensures Found(c, name, places, i, j)
    ensures RoutesAt(c, places, routes + RoutesIn(c.channels[i], c.models[..j], name))
    decreases j
  {
    if j == 0 {
      places := before;
      assert routes + RoutesIn(c.channels[i], c.models[..0], name) == routes;
    } else {
      var ch, m := c.channels[i], c.models[j - 1];
      places := PlacesIn(c, name, i, j - 1, before, routes);
      assert c.models[..j][..j - 1] == c.models[..j - 1];
      var found := routes + RoutesIn(ch, c.models[..j - 1], name);
      assert forall p: (nat, nat) :: Earlier(p, (i, j)) <==> Earlier(p, (i, j - 1)) || p == (i, j - 1);
      if Serves(m, ch, name) {
        assert routes + RoutesIn(ch, c.models[..j], name) ==
          found + [Route(ch.id, ch.balance, ch.channelType, m.name, m.system)];
        assert forall k :: 0 <= k < |places| ==> places[k] in places;
        places := places + [(i, j - 1)];
      } else {
        assert routes + RoutesIn(ch, c.models[..j], name) == found;
      }
    }
  }

  lemma {:induction false} PlacesFor(c: Config, name: string, i: nat) returns (places: seq<(nat, nat)>)
    requires i <= |c.channels|
    ensures Found(c, name, places, i, 0) && RoutesAt(c, places, RoutesFor(c.channels[..i], c.models, name))
  {
    if i == 0 {
      places := [];
    } else {
      places := PlacesFor(c, name, i - 1);
      assert c.channels[..i][..i - 1] == c.channels[..i - 1] && c.models[..|c.models|] == c.models;
      places := PlacesIn(c, name, i - 1, |c.models|, places, RoutesFor(c.channels[..i - 1], c.models, name));
      forall p: (nat, nat)
        ensures Match(c, name, p) ==> (Earlier(p, (i, 0)) <==> Earlier(p, (i - 1, |c.models|)))
      {
      }
    }
  }

  /**
   A readable request asks for the model its redirect names, unless that is empty. Its routes are one for each enabled
   model row of that name or alias on an active channel, in the order of the rows; with none the model is missing.
   */
  lemma RoutesMeaning(c: Config, rr: map<string, nat>, r: Request) returns (places: seq<(nat, nat)>)
    requires r.readOk
    ensures var name := if r.model in c.redirects && c.redirects[r.model] != "" then c.redirects[r.model] else r.model;
      && (forall p :: p in places <==> Match(c, name, p))
      && match Resolve(c, rr, r)
         case Unresolved(e) => places == [] && e == ModelNotFound
         case Resolved(plan) => places != [] && RoutesAt(c, places, plan.routes)
  {
    hide RoutesFor;
    places := PlacesFor(c, Target(c, r), |c.channels|);
    assert c.channels[..|c.channels|] == c.channels;
  }

  /** How Chat ends, routes included. */
  function ChatEnding(c: Config, rr: map<string, nat>, r: Request, w: World, pool: K.Pool): Ending {
    ResolvedIsSound(c, rr, r);
    match Resolve(c, rr, r)
    case Unresolved(e) => Ending(0, Some(e))
    case Resolved(plan) => Chat(plan, w, pool).ending
  }

  function StreamEnding(
    c: Config, rr: map<string, nat>, r: Request, w: World, sink: Sink, pool: K.Pool): Ending
  {
    ResolvedIsSound(c, rr, r);
    match Resolve(c, rr, r)
    case Unresolved(e) => Ending(0, Some(e))
    case Resolved(plan) => Failover.ChatStream(plan, w, sink, pool).ending
  }

  /**
   The model is reported missing, by Chat and by ChatStream, exactly when no enabled model of that name or alias sits
   on an active channel.
   */
  lemma NotFoundMeaning(c: Config, rr: map<string, nat>, r: Request, w: World, sink: Sink, pool: K.Pool)
    requires r.readOk
    ensures ChatEnding(c, rr, r, w, pool).error == Some(ModelNotFound) <==>
      (forall ch, m :: ch in c.channels && m in c.models ==> !Serves(m, ch, Target(c, r)))
    ensures StreamEnding(c, rr, r, w, sink, pool).error == Some(ModelNotFound) <==>
      (forall ch, m :: ch in c.channels && m in c.models ==> !Serves(m, ch, Target(c, r)))
  {
    ResolvedIsSound(c, rr, r);
    match Resolve(c, rr, r)
    case Resolved(plan) =>
      AttemptsAndEnding(plan, w, pool);
      StreamAttemptsAndEnding(plan, w, sink, pool);
    case Unresolved(_) =>
  }

  // ---------- The router object ----------

  class Router {
    const config: Config
    const manager: K.Manager
    var rr: map<string, nat>

    constructor (config: Config, manager: K.Manager)
      ensures this.config == config && this.manager == manager && rr == map[]
    {
      this.config, this.manager, rr := config, manager, map[];
    }

    /** The permutation is built in an array, shuffled in place, and read from the starting point. */
    method ChannelOrder(model: string, n: nat, pick: nat -> nat) returns (order: seq<nat>)
      requires n > 0
      modifies this`rr
      ensures order == OrderOf(config.strategy, old(rr), model, n, pick)
      ensures rr == AfterOrder(config.strategy, old(rr), model)
    {
      var perm := new nat[n](i => i);
      assert perm[..] == Identity(n);
      var start := 0;
      if config.strategy == "round_robin" {
        start := Counter(rr, model) % n;
        rr := rr[model := Counter(rr, model) + 1];
        ReadIdentity(n, start);
      } else {
        Shuffle(perm, pick);
        ReadFromZero(perm[..]);
      }
      order := ReadRound(perm, start);
    }

    method ReadRound(perm: array<nat>, start: nat) returns (out: seq<nat>)
      requires perm.Length > 0
      ensures out == Round(perm[..], start)
    {
      out := [];
      var i := 0;
      while i < perm.Length
        invariant 0 <= i <= perm.Length
        invariant out == Round(perm[..], start)[..i]
      {
        out := out + [perm[(start + i) % perm.Length]];
        i := i + 1;
      }
    }

    method Shuffle(perm: array<nat>, pick: nat -> nat)
      requires perm.Length > 0
      modifies perm
      ensures perm[..] == Shuffled(old(perm[..]), perm.Length - 1, pick)
    {
      var i := perm.Length - 1;
      while i > 0
        invariant 0 <= i < perm.Length
        invariant Shuffled(perm[..], i, pick) == Shuffled(old(perm[..]), perm.Length - 1, pick)
      {
        var j := pick(i) % (i + 1);
        ghost var before := perm[..];
        perm[i], perm[j] := perm[j], perm[i];
        assert perm[..] == Swap(before, i, j);
        i := i - 1;
      }
    }

    method ResolveRoutes(r: Request) returns (s: Resolution)
      modifies this`rr
      ensures s == Resolve(config, old(rr), r)
      ensures rr == RrAfter(config, old(rr), r)
    {
      if !r.readOk {
        return Unresolved(RoutesUnavailable);
      }
      var model := Redirected(config.redirects, r.model);
      var routes := RoutesFor(config.channels, config.models, model);
      if |routes| == 0 {
        return Unresolved(ModelNotFound);
      }
      var order := ChannelOrder(model, |routes|, r.pick);
      s := Resolved(Plan(routes, order));
    }
  
    /** Key selection, the channel type check, and the upstream call. */
    method Call(plan: Plan, w: World, pos: nat, n: nat) returns (a: Attempt)
      requires Sound(plan) && pos < |Sequence(plan)|
      modifies manager
      ensures (manager.State(), a) == Try(plan, w, pos, n, old(manager.State()))
    {
      var r := Sequence(plan)[pos];
      var route := plan.routes[r];
      var selection := manager.SelectKey(route.channel, route.balance, w.turn(n).draw);
      var outcome := None;
      if selection.Picked? && Supported(route.channelType) {
        outcome := Some(w.reply(n, r, selection.key).outcome);
      }
      a := Attempt(pos, r, selection, outcome);
    }

    /** The loop over the sequence, and within a channel the loop over its keys. */
    method Dispatch(plan: Plan, w: World) returns (ending: Ending, response: Option<string>)
      requires Sound(plan)
      modifies manager
      ensures var run := Failover.Chat(plan, w, old(manager.State()));
        ending == run.ending && response == run.response && manager.State() == run.pool
    {
      hide K.AfterSelect, ChatFrom;
      var maxAttempts := MaxAttempts(|plan.routes|);
      ghost var whole := Failover.Chat(plan, w, manager.State());
      var attempts := 0;
      var last := NOT_FOUND;
      var i := 0;
      while i < |Sequence(plan)| && attempts < maxAttempts
        invariant 0 <= i <= |Sequence(plan)| && attempts <= maxAttempts
        invariant SameEnd(whole, ChatFrom(plan, w, i, attempts, manager.State(), last))
      {
        var nextChannel := false;
        while attempts < maxAttempts && !nextChannel
          invariant attempts <= maxAttempts
          invariant SameEnd(whole, ChatFrom(plan, w, if nextChannel then i + 1 else i, attempts, manager.State(), last))
        {
          ChatStep(plan, w, i, attempts, manager.State(), last);
          var a := Call(plan, w, i, attempts);
          attempts := attempts + 1;
          last := EndingOf(plan, a);
          if a.selection.NoKey? {
            nextChannel := true;
          } else if a.outcome.None? || a.outcome.value.Success? {
            return last, Answer(a);
          } else if RateLimited(a.outcome.value) {
            manager.MarkKeyFailed(a.selection.key, w.turn(attempts - 1).markAt, w.turn(attempts - 1).markOk);
          } else if ChannelFailed(a.outcome.value) {
            nextChannel := true;
          } else {
            return last, Answer(a);
          }
        }
        if !nextChannel {
          ChatOver(plan, w, i, attempts, manager.State(), last);
          ChatOver(plan, w, i + 1, attempts, manager.State(), last);
        }
        i := i + 1;
      }
      ChatOver(plan, w, i, attempts, manager.State(), last);
      ending, response := last, None;
    }

    /** Non-streaming dispatch. */
    method Chat(r: Request, w: World) returns (ending: Ending, response: Option<string>)
      modifies this`rr, manager
      ensures rr == RrAfter(config, old(rr), r)
      ensures match Resolve(config, old(rr), r)
        case Unresolved(e) => ending == Ending(0, Some(e)) && response == None
          && manager.State() == old(manager.State())
        case Resolved(plan) =>
          Sound(plan) &&
          var run := Failover.Chat(plan, w, old(manager.State()));
          ending == run.ending && response == run.response && manager.State() == run.pool
    {
      ResolvedIsSound(config, rr, r);
      var resolution := ResolveRoutes(r);
      if resolution.Unresolved? {
        return Ending(0, Some(resolution.error)), None;
      }
      ending, response := Dispatch(resolution.plan, w);
    }

    /** The call of the streaming loop: its events go to the sink one by one until one is refused. */
    method CallStream(plan: Plan, w: World, sink: Sink, pos: nat, n: nat) returns (a: Attempt, handed: seq<StreamEvent>)
      requires Sound(plan) && pos < |Sequence(plan)|
      modifies manager
      ensures (manager.State(), a, handed) == StreamTry(plan, w, sink, pos, n, old(manager.State()))
    {
      var r := Sequence(plan)[pos];
      var route := plan.routes[r];
      var selection := manager.SelectKey(route.channel, route.balance, w.turn(n).draw);
      handed := [];
      if selection.NoKey? || !Supported(route.channelType) {
        return Attempt(pos, r, selection, None), [];
      }
      var reply := w.reply(n, r, selection.key);
      var outcome := reply.outcome;
      var i := 0;
      var refused := false;
      while i < |reply.events| && !refused
        invariant 0 <= i <= |reply.events|
        invariant handed == reply.events[..i]
        invariant Deliver(reply.events, sink, 0) == if refused then (handed, true) else Deliver(reply.events, sink, i)
        invariant outcome == if refused then LocalError("emit failed") else reply.outcome
      {
        handed := handed + [reply.events[i]];
        if !sink(handed) {
          refused := true;
          outcome := LocalError("emit failed");
        }
        i := i + 1;
      }
      assert reply.events[..|reply.events|] == reply.events;
      assert Streamed(reply, sink) == (handed, outcome);
      a := Attempt(pos, r, selection, Some(outcome));
    }

    /** The loops of ChatStream; `emitted` is whether anything has been handed over. */
    method DispatchStream(plan: Plan, w: World, sink: Sink) returns (ending: Ending, handed: seq<StreamEvent>)
      requires Sound(plan)
      modifies manager
      ensures var run := Failover.ChatStream(plan, w, sink, old(manager.State()));
        ending == run.ending && handed == run.handed && manager.State() == run.pool
    {
      hide K.AfterSelect, Streamed, StreamFrom;
      var maxAttempts := MaxAttempts(|plan.routes|);
      ghost var whole := Failover.ChatStream(plan, w, sink, manager.State());
      var attempts := 0;
      var last := NOT_FOUND;
      var i := 0;
      while i < |Sequence(plan)| && attempts < maxAttempts
        invariant 0 <= i <= |Sequence(plan)| && attempts <= maxAttempts
        invariant SameStreamEnd(whole, StreamFrom(plan, w, sink, i, attempts, manager.State(), last))
      {
        var nextChannel := false;
        while attempts < maxAttempts && !nextChannel
          invariant attempts <= maxAttempts
          invariant SameStreamEnd(whole,
            StreamFrom(plan, w, sink, if nextChannel then i + 1 else i, attempts, manager.State(), last))
        {
          StreamStep(plan, w, sink, i, attempts, manager.State(), last);
          var a, events := CallStream(plan, w, sink, i, attempts);
          attempts := attempts + 1;
          last := EndingOf(plan, a);
          var emitted := events != [];
          if a.selection.NoKey? {
            nextChannel := true;
          } else if a.outcome.None? || a.outcome.value.Success? || emitted {
            return last, events;
          } else if RateLimited(a.outcome.value) {
            manager.MarkKeyFailed(a.selection.key, w.turn(attempts - 1).markAt, w.turn(attempts - 1).markOk);
          } else if ChannelFailed(a.outcome.value) {
            nextChannel := true;
          } else {
            return last, events;
          }
        }
        if !nextChannel {
          StreamOver(plan, w, sink, i, attempts, manager.State(), last);
          StreamOver(plan, w, sink, i + 1, attempts, manager.State(), last);
        }
        i := i + 1;
      }
      StreamOver(plan, w, sink, i, attempts, manager.State(), last);
      ending, handed := last, [];
    }

    /** Streaming dispatch. */
    method ChatStream(r: Request, w: World, sink: Sink) returns (ending: Ending, handed: seq<StreamEvent>)
      modifies this`rr, manager
      ensures rr == RrAfter(config, old(rr), r)
      ensures match Resolve(config, old(rr), r)
        case Unresolved(e) => ending == Ending(0, Some(e)) && handed == [] && manager.State() == old(manager.State())
        case Resolved(plan) =>
          Sound(plan) &&
          var run := Failover.ChatStream(plan, w, sink, old(manager.State()));
          ending == run.ending && handed == run.handed && manager.State() == run.pool
    {
      ResolvedIsSound(config, rr, r);
      var resolution := ResolveRoutes(r);
      if resolution.Unresolved? {
        return Ending(0, Some(resolution.error)), [];
      }
      ending, handed := DispatchStream(resolution.plan, w, sink);
    }
  }

  /** The parts of a run that its caller sees. */
  ghost predicate SameEnd(x: Run, y: Run) {
    x.pool == y.pool && x.ending == y.ending && x.response == y.response
  }

  ghost predicate SameStreamEnd(x: StreamRun, y: StreamRun) {
    x.pool == y.pool && x.ending == y.ending && x.handed == y.handed
  }
}
