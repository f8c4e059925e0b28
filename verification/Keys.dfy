/**
 The keys of a channel: selection among those not cooling down, rotation, and the cooldown set after a
 429 or a 401. The table stands for the channel_keys rows in id order.
 */
module Keys {
  import opened Wrappers
  import opened Rotation
  import opened Places

  /** `usable` says whether the stored secret decrypts. */
  datatype ChannelKey = ChannelKey(id: int, channel: int, usable: bool, cooldownUntil: Option<int>)

  datatype KeyError = StoreFailed | NotConfigured | AllCooling | Undecryptable

  datatype Selection = Picked(key: int) | NoKey(reason: KeyError)

  /** What one call of SelectKey meets: whether the table can be read, the clock, and the random choice. */
  datatype Draw = Draw(readOk: bool, now: int, choice: nat)

  datatype Pool = Pool(table: seq<ChannelKey>, rr: map<int, nat>, cooldown: int)

  predicate Ready(k: ChannelKey, now: int) {
    k.cooldownUntil.None? || k.cooldownUntil.value < now
  }

  function Filter(table: seq<ChannelKey>, p: ChannelKey -> bool): (r: seq<ChannelKey>)
    ensures forall k :: k in r <==> k in table && p(k)
  {
    if |table| == 0 then [] else
    var last := table[|table| - 1];
    Filter(table[..|table| - 1], p) + (if p(last) then [last] else [])
  }

  /** ListChannelKeys. */
  function KeysOf(table: seq<ChannelKey>, channel: int): seq<ChannelKey> {
    Filter(table, (k: ChannelKey) => k.channel == channel)
  }

  function Available(keys: seq<ChannelKey>, now: int): seq<ChannelKey> {
    Filter(keys, (k: ChannelKey) => Ready(k, now))
  }

  function Counter(rr: map<int, nat>, channel: int): nat {
    if channel in rr then rr[channel] else 0
  }

  function AfterSelect(p: Pool, channel: int, strategy: string, d: Draw): (Pool, Selection) {
    if !d.readOk then (p, NoKey(StoreFailed)) else
    var keys := KeysOf(p.table, channel);
    if |keys| == 0 then (p, NoKey(NotConfigured)) else
    var avail := Available(keys, d.now);
    if |avail| == 0 then (p, NoKey(AllCooling)) else
    var c := Counter(p.rr, channel);
    var rotate := strategy == "round_robin";
    var pick := avail[(if rotate then c else d.choice) % |avail|];
    (if rotate then p.(rr := p.rr[channel := c + 1]) else p,
     if pick.usable then Picked(pick.id) else NoKey(Undecryptable))
  }

  /** SetKeyCooldown. */
  function Cooled(table: seq<ChannelKey>, key: int, until: int): (r: seq<ChannelKey>)
    ensures |r| == |table|
  {
    seq(|table|, i requires 0 <= i < |table| =>
      if table[i].id == key then table[i].(cooldownUntil := Some(until)) else table[i])
  }

  /** A failed write is ignored. */
  function AfterMark(p: Pool, key: int, now: int, writeOk: bool): Pool {
    if writeOk then p.(table := Cooled(p.table, key, now + p.cooldown)) else p
  }

  // ---------- The manager object ----------

  class Manager {
    var table: seq<ChannelKey>
    var rr: map<int, nat>
    var cooldown: int

    ghost function State(): Pool
      reads this
    {
      Pool(table, rr, cooldown)
    }

    constructor (table: seq<ChannelKey>, cooldown: int)
      ensures State() == Pool(table, map[], cooldown)
    {
      this.table, rr, this.cooldown := table, map[], cooldown;
    }

    /** A duration of zero or less keeps the current setting. */
    method SetCooldown(d: int)
      modifies this
      ensures State() == old(State()).(cooldown := if d > 0 then d else old(cooldown))
    {
      if d > 0 {
        cooldown := d;
      }
    }

    method SelectKey(channel: int, strategy: string, d: Draw) returns (s: Selection)
      modifies this`rr
      ensures (State(), s) == AfterSelect(old(State()), channel, strategy, d)
    {
      if !d.readOk {
        return NoKey(StoreFailed);
      }
      var keys := KeysOf(table, channel);
      if |keys| == 0 {
        return NoKey(NotConfigured);
      }
      var avail := [];
      var i := 0;
      while i < |keys|
        invariant 0 <= i <= |keys|
        invariant avail == Available(keys[..i], d.now)
      {
        if keys[i].cooldownUntil.None? || keys[i].cooldownUntil.value < d.now {
          avail := avail + [keys[i]];
        }
        assert keys[..i + 1][..i] == keys[..i];
        i := i + 1;
      }
      assert keys[..i] == keys;
      if |avail| == 0 {
        return NoKey(AllCooling);
      }
      var pick;
      if strategy == "round_robin" {
        var c := Counter(rr, channel);
        rr := rr[channel := c + 1];
        pick := avail[c % |avail|];
      } else {
        pick := avail[d.choice % |avail|];
      }
      if pick.usable {
        s := Picked(pick.id);
      } else {
        s := NoKey(Undecryptable);
      }
    }

    method MarkKeyFailed(key: int, now: int, writeOk: bool)
      modifies this`table
      ensures State() == AfterMark(old(State()), key, now, writeOk)
    {
      if writeOk {
        table := Cooled(table, key, now + cooldown);
      }
    }
  }

  // ---------- Selection ----------

  /** A selected key belongs to the channel, decrypts, and is not cooling at that moment. */
  lemma SelectionIsReady(p: Pool, channel: int, strategy: string, d: Draw)
    ensures var (q, s) := AfterSelect(p, channel, strategy, d);
      && q.table == p.table && q.cooldown == p.cooldown
      && (s.Picked? ==> exists k ::
            k in p.table && k.id == s.key && k.channel == channel && k.usable && Ready(k, d.now))
      && (s == NoKey(NotConfigured) <==> d.readOk && forall k :: k in p.table ==> k.channel != channel)
      && (s == NoKey(AllCooling) <==>
          (d.readOk && (exists k :: k in p.table && k.channel == channel)
           && forall k :: k in p.table && k.channel == channel ==> !Ready(k, d.now)))
  {
    var keys := KeysOf(p.table, channel);
    var avail := Available(keys, d.now);
    if |keys| > 0 {
      assert keys[0] in keys;
    }
    if |avail| > 0 {
      assert avail[0] in avail;
      var rotate := strategy == "round_robin";
      var pick := avail[(if rotate then Counter(p.rr, channel) else d.choice) % |avail|];
      assert pick in avail;
    }
  }

  /** The places of the channel's keys, in order, that have no cooldown or one that ended before this moment. */
  ghost predicate AvailableAt(table: seq<ChannelKey>, channel: int, now: int, places: seq<nat>) {
    && (forall i :: 0 <= i < |places| ==> places[i] < |table|)
    && Rising(places)
    && (forall k: nat | k < |table| ::
          k in places <==>
            && table[k].channel == channel
            && match table[k].cooldownUntil case None => true case Some(until) => until < now)
  }

  lemma {:induction false} AvailablePlaces(table: seq<ChannelKey>, channel: int, now: int) returns (places: seq<nat>)
    ensures AvailableAt(table, channel, now, places)
    ensures Available(KeysOf(table, channel), now) == Taken(table, places)
  {
    if |table| == 0 {
      places := [];
    } else {
      var n := |table| - 1;
      places := AvailablePlaces(table[..n], channel, now);
      OneMoreKey(table, channel, now);
      MorePlaces(table, channel, now, places);
      places := places + NextPlace(table, channel, now);
    }
  }

  function NextPlace(table: seq<ChannelKey>, channel: int, now: int): seq<nat>
    requires |table| > 0
  {
    var n := |table| - 1;
    if table[n].channel == channel && Ready(table[n], now) then [n] else []
  }

  lemma MorePlaces(table: seq<ChannelKey>, channel: int, now: int, places: seq<nat>)
    requires |table| > 0 && AvailableAt(table[..|table| - 1], channel, now, places)
    ensures var more := places + NextPlace(table, channel, now);
      && AvailableAt(table, channel, now, more)
      && Taken(table, more) == Taken(table[..|table| - 1], places) + Taken(table, NextPlace(table, channel, now))
  {
    var n := |table| - 1;
    var init, more := table[..n], places + NextPlace(table, channel, now);
    assert forall k :: 0 <= k < n ==> init[k] == table[k];
    assert forall i :: 0 <= i < |places| ==> places[i] < n;
    assert n !in places;
    forall k: nat | k < |table|
      ensures k in more <==>
        && table[k].channel == channel
        && match table[k].cooldownUntil case None => true case Some(until) => until < now
    {
      assert k in more <==> k in places || k in NextPlace(table, channel, now);
    }
  }

  lemma OneMoreKey(table: seq<ChannelKey>, channel: int, now: int)
    requires |table| > 0
    ensures var last := table[|table| - 1];
      Available(KeysOf(table, channel), now) ==
        Available(KeysOf(table[..|table| - 1], channel), now)
        + (if last.channel == channel && Ready(last, now) then [last] else [])
  {
    var last := table[|table| - 1];
    var keys := KeysOf(table[..|table| - 1], channel);
    if last.channel == channel {
      assert KeysOf(table, channel) == keys + [last];
      assert (keys + [last])[..|keys|] == keys;
    } else {
      assert KeysOf(table, channel) == keys;
    }
  }

  /**
   What one selection does, key by key. Under round robin the channel's counter picks among the available keys and
   moves on by one, whether or not the picked key decrypts; otherwise the random choice picks and no counter moves.
   Nothing else changes.
   */
  lemma SelectionMeaning(p: Pool, channel: int, strategy: string, d: Draw) returns (places: seq<nat>)
    ensures AvailableAt(p.table, channel, d.now, places)
    ensures var (q, s) := AfterSelect(p, channel, strategy, d);
      var start := if channel in p.rr then p.rr[channel] else 0;
      if !d.readOk || places == [] then
        && q == p && s.NoKey? && (s.reason.StoreFailed? <==> !d.readOk) && !s.reason.Undecryptable?
      else
        && var pick := p.table[places[(if strategy == "round_robin" then start else d.choice) % |places|]];
        && (if pick.usable then s == Picked(pick.id) else s == NoKey(Undecryptable))
        && q == if strategy == "round_robin" then p.(rr := p.rr[channel := start + 1]) else p
  {
    places := AvailablePlaces(p.table, channel, d.now);
    assert |Taken(p.table, places)| == |places|;
    if places != [] {
      assert Available(KeysOf(p.table, channel), d.now)[0] in KeysOf(p.table, channel);
    }
  }

  /** A cooldown runs from the given moment for the configured time, on the key's rows and no others. */
  lemma MarkMeaning(p: Pool, key: int, now: int, writeOk: bool)
    ensures var q := AfterMark(p, key, now, writeOk);
      && q.rr == p.rr && q.cooldown == p.cooldown && |q.table| == |p.table|
      && forall i :: 0 <= i < |p.table| ==>
           && q.table[i].id == p.table[i].id && q.table[i].channel == p.table[i].channel
           && q.table[i].usable == p.table[i].usable
           && q.table[i].cooldownUntil ==
                (if writeOk && p.table[i].id == key then Some(now + p.cooldown) else p.table[i].cooldownUntil)
  {
    hide Filter;
  }

  // ---------- Rotation ----------

  function SelectMany(p: Pool, channel: int, draws: seq<Draw>): (Pool, seq<Selection>) {
    if |draws| == 0 then (p, []) else
    var (q, before) := SelectMany(p, channel, draws[..|draws| - 1]);
    var (r, s) := AfterSelect(q, channel, "round_robin", draws[|draws| - 1]);
    (r, before + [s])
  }

  /** The moment shows exactly these keys as available. */
  ghost predicate Sees(table: seq<ChannelKey>, channel: int, d: Draw, avail: seq<ChannelKey>) {
    d.readOk && Available(KeysOf(table, channel), d.now) == avail
  }

  lemma RotateOne(p: Pool, channel: int, d: Draw, avail: seq<ChannelKey>)
    requires |avail| > 0 && Sees(p.table, channel, d, avail)
    requires forall k :: 0 <= k < |avail| ==> avail[k].usable
    ensures var c := Counter(p.rr, channel);
      AfterSelect(p, channel, "round_robin", d) == (p.(rr := p.rr[channel := c + 1]), Picked(avail[c % |avail|].id))
  {
    assert avail[0] in KeysOf(p.table, channel);
  }

  /** Consecutive calls that see the same available keys walk round them. */
  lemma {:induction false} RotationWalks(p: Pool, channel: int, draws: seq<Draw>, avail: seq<ChannelKey>)
    requires |avail| > 0 && forall k :: 0 <= k < |avail| ==> avail[k].usable
    requires forall i :: 0 <= i < |draws| ==> Sees(p.table, channel, draws[i], avail)
    ensures var (q, picks) := SelectMany(p, channel, draws);
      && q.table == p.table && Counter(q.rr, channel) == Counter(p.rr, channel) + |draws|
      && |picks| == |draws|
      && forall i :: 0 <= i < |picks| ==> picks[i] == Picked(avail[(Counter(p.rr, channel) + i) % |avail|].id)
  {
    hide AfterSelect, Sees;
    if |draws| == 0 {
    } else {
      var init, d := draws[..|draws| - 1], draws[|draws| - 1];
      RotationWalks(p, channel, init, avail);
      RotateOne(SelectMany(p, channel, init).0, channel, d, avail);
    }
  }

  function Picks(avail: seq<ChannelKey>, order: seq<nat>): (r: seq<Selection>)
    requires forall i :: 0 <= i < |order| ==> order[i] < |avail|
    ensures |r| == |order|
  {
    seq(|order|, i requires 0 <= i < |order| => Picked(avail[order[i]].id))
  }

  /** Any m consecutive selections over an unchanged set of m available keys return each key exactly once. */
  lemma RotationIsFair(p: Pool, channel: int, draws: seq<Draw>, avail: seq<ChannelKey>) returns (order: seq<nat>)
    requires |draws| == |avail| > 0 && forall k :: 0 <= k < |avail| ==> avail[k].usable
    requires forall i :: 0 <= i < |draws| ==> Sees(p.table, channel, draws[i], avail)
    ensures Permutation(order, |avail|)
    ensures SelectMany(p, channel, draws).1 == Picks(avail, order)
  {
    hide SelectMany, Rotated, Sees;
    var c := Counter(p.rr, channel);
    order := Rotated(c, |avail|);
    RotatedIsPermutation(c, |avail|);
    RotationWalks(p, channel, draws, avail);
    WalkIsRotation(avail, c, SelectMany(p, channel, draws).1);
  }

  lemma WalkIsRotation(avail: seq<ChannelKey>, c: nat, picks: seq<Selection>)
    requires |picks| == |avail| > 0
    requires forall i :: 0 <= i < |picks| ==> picks[i] == Picked(avail[(c + i) % |avail|].id)
    ensures picks == Picks(avail, Rotated(c, |avail|))
  {
    var r := Picks(avail, Rotated(c, |avail|));
    forall i | 0 <= i < |picks|
      ensures picks[i] == r[i]
    {
      assert Rotated(c, |avail|)[i] == (c + i) % |avail|;
    }
  }
}
