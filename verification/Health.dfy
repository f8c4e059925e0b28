/**
 The health checker: a counter of consecutive failures for each channel, read against the channel's whole
 history of pings.
 */
module Health {
  import opened Wrappers

  datatype Channel = Channel(id: int, typ: string, status: string)

  /** What one round meets: whether channels can be listed, each ping, and the fate of each status write. */
  datatype Round = Round(listOk: bool, ping: int -> bool, writeOk: int -> bool)

  /** The channel table and the checker's counters. */
  datatype State = State(table: seq<Channel>, counts: map<int, int>)

  predicate Checked(c: Channel) {
    (c.status == "active" || c.status == "down") && c.typ != "" && c.typ != "auto"
  }

  function Count(counts: map<int, int>, id: int): int {
    if id in counts then counts[id] else 0
  }

  function WithStatus(table: seq<Channel>, id: int, status: string): (r: seq<Channel>)
    ensures |r| == |table|
    ensures forall i :: 0 <= i < |r| ==> r[i] == if table[i].id == id then table[i].(status := status) else table[i]
  {
    seq(|table|, i requires 0 <= i < |table| => if table[i].id == id then table[i].(status := status) else table[i])
  }

  function AfterChannel(maxFailures: int, st: State, c: Channel, r: Round): State {
    if !Checked(c) then st.(counts := st.counts - {c.id}) else
    if r.ping(c.id) then
      State(if c.status != "active" && r.writeOk(c.id) then WithStatus(st.table, c.id, "active") else st.table,
            st.counts[c.id := 0])
    else
      var n := Count(st.counts, c.id) + 1;
      if n < maxFailures then st.(counts := st.counts[c.id := n]) else
      State(if r.writeOk(c.id) then WithStatus(st.table, c.id, "down") else st.table, st.counts - {c.id})
  }

  /** After the first k channels of a round, which works on the table as it was listed. */
  function AfterFirst(maxFailures: int, st: State, r: Round, k: nat): State
    requires k <= |st.table|
  {
    if k == 0 then st else AfterChannel(maxFailures, AfterFirst(maxFailures, st, r, k - 1), st.table[k - 1], r)
  }

  function AfterRound(maxFailures: int, st: State, r: Round): State {
    if r.listOk then AfterFirst(maxFailures, st, r, |st.table|) else st
  }

  function AfterRounds(maxFailures: int, st: State, rounds: seq<Round>): State {
    if |rounds| == 0 then st else
    AfterRound(maxFailures, AfterRounds(maxFailures, st, rounds[..|rounds| - 1]), rounds[|rounds| - 1])
  }

  class Store {
    var channels: seq<Channel>

    constructor (channels: seq<Channel>)
      ensures this.channels == channels
    {
      this.channels := channels;
    }

    method SetChannelStatus(id: int, status: string, succeeds: bool)
      modifies this
      ensures channels == if succeeds then WithStatus(old(channels), id, status) else old(channels)
    {
      if succeeds {
        channels := WithStatus(channels, id, status);
      }
    }
  }

  class HealthChecker {
    const store: Store
    const maxFailures: int
    var failCount: map<int, int>

    ghost function Value(): State
      reads this, store
    {
      State(store.channels, failCount)
    }

    constructor (store: Store, maxFailures: int)
      ensures this.store == store && this.maxFailures == maxFailures && failCount == map[]
    {
      this.store := store;
      this.maxFailures := maxFailures;
      failCount := map[];
    }

    method CheckOnce(r: Round)
      modifies this, store
      ensures Value() == AfterRound(maxFailures, old(Value()), r)
    {
      hide WithStatus;
      if !r.listOk {
        return;
      }
      var channels := store.channels;
      for i := 0 to |channels|
        invariant old(Value()).table == channels
        invariant Value() == AfterFirst(maxFailures, old(Value()), r, i)
      {
        var ch := channels[i];
        if (ch.status != "active" && ch.status != "down") || ch.typ == "" || ch.typ == "auto" {
          failCount := failCount - {ch.id};
          continue;
        }
        if r.ping(ch.id) {
          failCount := failCount[ch.id := 0];
          if ch.status != "active" {
            store.SetChannelStatus(ch.id, "active", r.writeOk(ch.id));
          }
          continue;
        }
        failCount := failCount[ch.id := Count(failCount, ch.id) + 1];
        if failCount[ch.id] >= maxFailures {
          store.SetChannelStatus(ch.id, "down", r.writeOk(ch.id));
          failCount := failCount - {ch.id};
        }
      }
    }

    /** One round at the start and one at each tick. */
    method Start(rounds: seq<Round>)
      modifies this, store
      ensures Value() == AfterRounds(maxFailures, old(Value()), rounds)
    {
      for i := 0 to |rounds|
        invariant Value() == AfterRounds(maxFailures, old(Value()), rounds[..i])
      {
        assert rounds[..i + 1][..i] == rounds[..i];
        CheckOnce(rounds[i]);
      }
      assert rounds[..|rounds|] == rounds;
    }
  }

  // ---------- One channel by itself ----------

  /** A channel's status and its counter, if it has one. */
  datatype Cell = Cell(status: string, count: Option<int>)

  function CellOf(st: State, i: nat): Cell
    requires i < |st.table|
  {
    var id := st.table[i].id;
    Cell(st.table[i].status, if id in st.counts then Some(st.counts[id]) else None)
  }

  function Counted(cell: Cell): int {
    if cell.count.Some? then cell.count.value else 0
  }

  /** What a round does to one channel. */
  function AfterPing(maxFailures: int, c: Channel, cell: Cell, r: Round): Cell {
    if !Checked(c) then cell.(count := None) else
    if r.ping(c.id) then Cell(if r.writeOk(c.id) then "active" else cell.status, Some(0)) else
    if Counted(cell) + 1 < maxFailures then cell.(count := Some(Counted(cell) + 1)) else
    Cell(if r.writeOk(c.id) then "down" else cell.status, None)
  }

  ghost predicate DistinctIds(table: seq<Channel>) {
    forall i, j :: 0 <= i < j < |table| ==> table[i].id != table[j].id
  }

  /** Rows keep their identity and their type. */
  ghost predicate SameRows(a: seq<Channel>, b: seq<Channel>) {
    |a| == |b| && forall i :: 0 <= i < |a| ==> a[i] == b[i].(status := a[i].status)
  }

  ghost predicate Progress(maxFailures: int, st: State, r: Round, k: nat)
    requires k <= |st.table|
  {
    var now := AfterFirst(maxFailures, st, r, k);
    && SameRows(now.table, st.table)
    && (forall i :: 0 <= i < k ==> CellOf(now, i) == AfterPing(maxFailures, st.table[i], CellOf(st, i), r))
    && (forall i :: k <= i < |st.table| ==> CellOf(now, i) == CellOf(st, i))
  }

  lemma {:induction false} FirstProgress(maxFailures: int, st: State, r: Round, k: nat)
    requires DistinctIds(st.table) && k <= |st.table|
    ensures Progress(maxFailures, st, r, k)
  {
    if k == 0 {
    } else {
      FirstProgress(maxFailures, st, r, k - 1);
      ChannelStep(maxFailures, st, r, k);
    }
  }

  lemma ChannelStep(maxFailures: int, st: State, r: Round, k: nat)
    requires DistinctIds(st.table) && 0 < k <= |st.table| && Progress(maxFailures, st, r, k - 1)
    ensures Progress(maxFailures, st, r, k)
  {
    var before, now := AfterFirst(maxFailures, st, r, k - 1), AfterFirst(maxFailures, st, r, k);
    var c := st.table[k - 1];
    assert CellOf(before, k - 1) == CellOf(st, k - 1);
    assert before.table[k - 1] == c;
    AfterChannelAlone(maxFailures, before, c, r, k - 1);
    assert now == AfterChannel(maxFailures, before, c, r);
    hide AfterFirst, AfterChannel, AfterPing;
  }

  /** The step for one channel touches its row and its counter only. */
  lemma AfterChannelAlone(maxFailures: int, st: State, c: Channel, r: Round, k: nat)
    requires DistinctIds(st.table) && k < |st.table| && st.table[k] == c
    ensures var now := AfterChannel(maxFailures, st, c, r);
      && SameRows(now.table, st.table)
      && CellOf(now, k) == AfterPing(maxFailures, c, CellOf(st, k), r)
      && forall i :: 0 <= i < |st.table| && i != k ==> CellOf(now, i) == CellOf(st, i)
  {
    forall i | 0 <= i < |st.table| && i != k
      ensures st.table[i].id != c.id
    {
    }
  }

  /** Channels do not affect each other: a round does to each what it would do to that channel alone. */
  lemma RoundByChannel(maxFailures: int, st: State, r: Round, i: nat)
    requires DistinctIds(st.table) && i < |st.table| && r.listOk
    ensures var after := AfterRound(maxFailures, st, r);
      && SameRows(after.table, st.table)
      && CellOf(after, i) == AfterPing(maxFailures, st.table[i], CellOf(st, i), r)
  {
    FirstProgress(maxFailures, st, r, |st.table|);
  }

  // ---------- The history of one channel ----------

  /** The pings of the rounds that took place, in order. */
  function Pings(rounds: seq<Round>, id: int): seq<bool> {
    if |rounds| == 0 then [] else
    var r := rounds[|rounds| - 1];
    Pings(rounds[..|rounds| - 1], id) + (if r.listOk then [r.ping(id)] else [])
  }

  /** The trailing run of failed pings, on top of `start` earlier failures if no ping succeeded. */
  function Streak(start: nat, pings: seq<bool>): nat {
    if |pings| == 0 then start else
    if pings[|pings| - 1] then 0 else Streak(start, pings[..|pings| - 1]) + 1
  }

  /** Failures needed; a configured value below one acts as one. */
  function Threshold(maxFailures: int): nat {
    if maxFailures < 1 then 1 else maxFailures
  }

  ghost predicate WritesSucceed(rounds: seq<Round>, id: int) {
    forall i :: 0 <= i < |rounds| ==> rounds[i].writeOk(id)
  }

  /** A counter that starts over whenever it reaches the threshold. */
  function Wrapped(streak: nat, threshold: nat): (n: nat)
    requires threshold > 0
    ensures n < threshold
    ensures streak < threshold ==> n == streak
  {
    if streak == 0 then 0 else
    var n := Wrapped(streak - 1, threshold) + 1;
    if n < threshold then n else 0
  }

  /** The starting-over counter is the remainder. */
  lemma {:induction false} WrappedIsRemainder(streak: nat, threshold: nat, q: nat)
    requires threshold > 0 && q * threshold <= streak < q * threshold + threshold
    ensures Wrapped(streak, threshold) == streak - q * threshold
    decreases streak
  {
    if streak > q * threshold {
      WrappedIsRemainder(streak - 1, threshold, q);
    } else if q > 0 {
      assert (q - 1) * threshold == q * threshold - threshold;
      WrappedIsRemainder(streak - 1, threshold, q - 1);
    }
  }

  lemma RemainderIs(streak: nat, threshold: nat)
    requires threshold > 0
    ensures Wrapped(streak, threshold) == streak % threshold
  {
    var q := streak / threshold;
    assert streak == q * threshold + streak % threshold;
    WrappedIsRemainder(streak, threshold, q);
  }

  ghost predicate StatusTracks(maxFailures: int, c: Channel, pings: seq<bool>, streak: nat, status: string) {
    status == "down" <==> streak >= Threshold(maxFailures) || (c.status == "down" && true !in pings)
  }

  ghost predicate History(maxFailures: int, st: State, rounds: seq<Round>, i: nat)
    requires i < |st.table|
  {
    var after := AfterRounds(maxFailures, st, rounds);
    var c := st.table[i];
    var start := Counted(CellOf(st, i));
    var pings := Pings(rounds, c.id);
    && SameRows(after.table, st.table) && start >= 0
    && Counted(CellOf(after, i)) == Wrapped(Streak(start, pings), Threshold(maxFailures))
    && (after.table[i].status == "active" || after.table[i].status == "down")
    && (WritesSucceed(rounds, c.id) ==>
          StatusTracks(maxFailures, c, pings, Streak(start, pings), after.table[i].status))
  }

  /** One more ping, seen from the channel alone. */
  lemma PingStep(maxFailures: int, c: Channel, cell: Cell, now: Channel, r: Round, start: nat, pings: seq<bool>)
    requires Checked(now) && now.id == c.id && cell.status == now.status
    requires Counted(cell) == Wrapped(Streak(start, pings), Threshold(maxFailures))
    ensures var next := AfterPing(maxFailures, now, cell, r);
      var all := pings + [r.ping(c.id)];
      && Counted(next) == Wrapped(Streak(start, all), Threshold(maxFailures))
      && (next.status == "active" || next.status == "down")
      && (r.writeOk(c.id) && StatusTracks(maxFailures, c, pings, Streak(start, pings), cell.status) ==>
            StatusTracks(maxFailures, c, all, Streak(start, all), next.status))
  {
    var all := pings + [r.ping(c.id)];
    assert all[..|all| - 1] == pings;
    assert true in all <==> true in pings || r.ping(c.id);
  }

  lemma HistoryStep(maxFailures: int, st: State, rounds: seq<Round>, r: Round, i: nat)
    requires DistinctIds(st.table) && i < |st.table| && Checked(st.table[i])
    requires History(maxFailures, st, rounds, i) && r.listOk
    ensures History(maxFailures, st, rounds + [r], i)
  {
    hide AfterRound, AfterPing, Wrapped, Streak, StatusTracks;
    var all := rounds + [r];
    assert all[..|all| - 1] == rounds;
    var before := AfterRounds(maxFailures, st, rounds);
    var c := st.table[i];
    RoundByChannel(maxFailures, before, r, i);
    PingStep(maxFailures, c, CellOf(before, i), before.table[i], r, Counted(CellOf(st, i)), Pings(rounds, c.id));
    assert WritesSucceed(all, c.id) ==> WritesSucceed(rounds, c.id) && r.writeOk(c.id) by {
      assert all[|rounds|] == r;
      assert forall j :: 0 <= j < |rounds| ==> all[j] == rounds[j];
    }
  }

  lemma SkippedStep(maxFailures: int, st: State, rounds: seq<Round>, r: Round, i: nat)
    requires i < |st.table| && History(maxFailures, st, rounds, i) && !r.listOk
    ensures History(maxFailures, st, rounds + [r], i)
  {
    hide AfterFirst, Wrapped, Streak, StatusTracks;
    var all := rounds + [r];
    assert all[..|all| - 1] == rounds;
    assert Pings(all, st.table[i].id) == Pings(rounds, st.table[i].id);
    assert forall j :: 0 <= j < |rounds| ==> all[j] == rounds[j];
  }

  lemma {:induction false} HistoryHolds(maxFailures: int, st: State, rounds: seq<Round>, i: nat)
    requires DistinctIds(st.table) && i < |st.table| && Checked(st.table[i])
    requires 0 <= Counted(CellOf(st, i)) < Threshold(maxFailures)
    ensures History(maxFailures, st, rounds, i)
  {
    hide AfterRound;
    if |rounds| == 0 {
    } else {
      var init, r := rounds[..|rounds| - 1], rounds[|rounds| - 1];
      HistoryHolds(maxFailures, st, init, i);
      assert rounds == init + [r];
      if r.listOk {
        HistoryStep(maxFailures, st, init, r, i);
      } else {
        SkippedStep(maxFailures, st, init, r, i);
      }
    }
  }

  /**
   From a fresh checker, a checked channel that starts active is down after any rounds exactly when its trailing
   run of failed pings has reached the threshold, and its counter, always below the threshold, is that run's remainder.
   */
  lemma DownIffFailing(maxFailures: int, st: State, rounds: seq<Round>, i: nat)
    requires DistinctIds(st.table) && i < |st.table| && st.table[i].typ !in {"", "auto"}
    requires st.table[i].status == "active" && st.table[i].id !in st.counts
    requires WritesSucceed(rounds, st.table[i].id)
    ensures var after := AfterRounds(maxFailures, st, rounds);
      var failing := Streak(0, Pings(rounds, st.table[i].id));
      && SameRows(after.table, st.table)
      && after.table[i].status == (if failing >= Threshold(maxFailures) then "down" else "active")
      && Counted(CellOf(after, i)) == failing % Threshold(maxFailures) < Threshold(maxFailures)
  {
    hide AfterRounds, Streak, Pings;
    HistoryHolds(maxFailures, st, rounds, i);
    RemainderIs(Streak(0, Pings(rounds, st.table[i].id)), Threshold(maxFailures));
  }

  /** Disabled channels and channels without a known type keep their row through any rounds. */
  lemma {:induction false} UncheckedUntouched(maxFailures: int, st: State, rounds: seq<Round>, i: nat)
    requires DistinctIds(st.table) && i < |st.table|
    requires st.table[i].status !in {"active", "down"} || st.table[i].typ in {"", "auto"}
    ensures var after := AfterRounds(maxFailures, st, rounds);
      && SameRows(after.table, st.table) && after.table[i] == st.table[i]
      && ((exists j :: 0 <= j < |rounds| && rounds[j].listOk) ==> st.table[i].id !in after.counts)
  {
    if |rounds| == 0 {
    } else {
      var init, r := rounds[..|rounds| - 1], rounds[|rounds| - 1];
      UncheckedUntouched(maxFailures, st, init, i);
      var before := AfterRounds(maxFailures, st, init);
      if r.listOk {
        RoundByChannel(maxFailures, before, r, i);
      } else {
        assert forall j :: 0 <= j < |rounds| && rounds[j].listOk ==> init[j].listOk;
      }
    }
  }
}
