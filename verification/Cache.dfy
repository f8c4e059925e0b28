/** The response cache: a bounded map with expiry, read against the log of the writes it accepted. */
module Cache {
  import opened Wrappers
  import opened Text
  import opened Rotation

  /** A response as an opaque value. */
  type Response = string

  /** JSON text of responses. Marshalling may fail; when it succeeds, unmarshalling gives the response back. */
  datatype Marshaller = Marshaller(marshal: Response -> Option<string>, unmarshal: string -> Option<Response>) {
    ghost predicate Valid() {
      forall r: Response :: marshal(r).Some? ==> unmarshal(marshal(r).value) == Some(r)
    }
  }

  datatype Config = Config(enabled: bool, ttl: int, max: nat, json: Marshaller)

  datatype Entry = Entry(data: string, exp: int)

  type Items = map<string, Entry>

  // ---------- The cache operations on values ----------

  function AfterGet(cfg: Config, items: Items, key: string, now: int): (Items, Option<Response>) {
    if !cfg.enabled || key !in items then (items, None) else
    if now > items[key].exp || cfg.json.unmarshal(items[key].data).None? then (items - {key}, None) else
    (items, cfg.json.unmarshal(items[key].data))
  }

  function Purged(items: Items, now: int): Items {
    map k | k in items && now <= items[k].exp :: items[k]
  }

  function AfterSet(cfg: Config, items: Items, key: string, resp: Option<Response>, now: int, later: int): Items {
    if !cfg.enabled || resp.None? || cfg.json.marshal(resp.value).None? then items else
    var kept := if |items| >= cfg.max then Purged(items, now) else items;
    if |kept| >= cfg.max then kept else kept[key := Entry(cfg.json.marshal(resp.value).value, later + cfg.ttl)]
  }

  const DEFAULT_TTL := 300
  const MAX_ENTRIES := 5000

  class Manager {
    const cfg: Config
    var items: Items

    constructor (enabled: bool, ttl: int, json: Marshaller)
      ensures items == map[] && cfg == Config(enabled, if ttl <= 0 then 300 else ttl, 5000, json)
    {
      cfg := Config(enabled, if ttl <= 0 then DEFAULT_TTL else ttl, MAX_ENTRIES, json);
      items := map[];
    }

    method Get(key: string, now: int) returns (r: Option<Response>)
      modifies this
      ensures (items, r) == AfterGet(cfg, old(items), key, now)
    {
      if !cfg.enabled || key !in items {
        return None;
      }
      var e := items[key];
      if now > e.exp {
        items := items - {key};
        return None;
      }
      r := cfg.json.unmarshal(e.data);
      if r.None? {
        items := items - {key};
      }
    }

    /** The clock is read once for the purge and again for the expiry. */
    method Set(key: string, resp: Option<Response>, now: int, later: int)
      modifies this
      ensures items == AfterSet(cfg, old(items), key, resp, now, later)
    {
      if !cfg.enabled || resp.None? {
        return;
      }
      var data := cfg.json.marshal(resp.value);
      if data.None? {
        return;
      }
      if |items| >= cfg.max {
        Purge(now);
        if |items| >= cfg.max {
          return;
        }
      }
      items := items[key := Entry(data.value, later + cfg.ttl)];
    }

    method Purge(now: int)
      modifies this
      ensures items == Purged(old(items), now)
    {
      var pending := items.Keys;
      while pending != {}
        invariant pending <= old(items).Keys
        invariant items == map k | k in old(items) && (k in pending || now <= old(items)[k].exp) :: old(items)[k]
        decreases |pending|
      {
        ghost var some := AnyOf(pending);
        var k :| k in pending;
        if now > items[k].exp {
          items := items - {k};
        }
        pending := pending - {k};
      }
    }
  }

  // ---------- The log of accepted writes ----------

  datatype Write = Write(key: string, resp: Response, at: int)

  function LastWrite(log: seq<Write>, key: string): Option<Write> {
    if |log| == 0 then None else
    var w := log[|log| - 1];
    if w.key == key then Some(w) else LastWrite(log[..|log| - 1], key)
  }

  /** The last accepted write of the key is at most ttl ago. */
  predicate Live(cfg: Config, log: seq<Write>, key: string, now: int) {
    LastWrite(log, key).Some? && now - LastWrite(log, key).value.at <= cfg.ttl
  }

  function LiveKeys(cfg: Config, log: seq<Write>, now: int): set<string> {
    set w | w in log && Live(cfg, log, w.key, now) :: w.key
  }

  /** What Get answers, by the log. */
  function Found(cfg: Config, log: seq<Write>, key: string, now: int): Option<Response> {
    if cfg.enabled && Live(cfg, log, key, now) then Some(LastWrite(log, key).value.resp) else None
  }

  /** Whether Set is accepted, by the log: fewer than max keys have a live write. */
  predicate Accepted(cfg: Config, log: seq<Write>, resp: Option<Response>, now: int) {
    cfg.enabled && resp.Some? && cfg.json.marshal(resp.value).Some? && |LiveKeys(cfg, log, now)| < cfg.max
  }

  function Logged(cfg: Config, log: seq<Write>, key: string, resp: Option<Response>, now: int, later: int): seq<Write> {
    if Accepted(cfg, log, resp, now) then log + [Write(key, resp.value, later)] else log
  }

  // ---------- Refinement ----------

  /** The map holds the last accepted write of every key it has; a key it lacks has no write or an expired one. */
  ghost predicate Refines(cfg: Config, items: Items, log: seq<Write>, clock: int) {
    && |items| <= cfg.max
    && (forall k :: k in items ==>
          LastWrite(log, k).Some? &&
          var w := LastWrite(log, k).value;
          cfg.json.marshal(w.resp) == Some(items[k].data) && items[k].exp == w.at + cfg.ttl)
    && (forall k :: k !in items ==> !Live(cfg, log, k, clock))
  }

  lemma Later(cfg: Config, items: Items, log: seq<Write>, clock: int, now: int)
    requires Refines(cfg, items, log, clock) && clock <= now
    ensures Refines(cfg, items, log, now)
  {
  }

  lemma GetStep(cfg: Config, items: Items, log: seq<Write>, clock: int, key: string, now: int)
    requires cfg.json.Valid() && Refines(cfg, items, log, clock) && clock <= now
    ensures var (after, r) := AfterGet(cfg, items, key, now);
      r == Found(cfg, log, key, now) && Refines(cfg, after, log, now)
  {
    Later(cfg, items, log, clock, now);
    var (after, r) := AfterGet(cfg, items, key, now);
    assert after.Keys <= items.Keys;
    SubsetSize(after.Keys, items.Keys);
  }

  lemma {:induction false} LastWriteIn(log: seq<Write>, key: string)
    ensures LastWrite(log, key).Some? ==> LastWrite(log, key).value in log && LastWrite(log, key).value.key == key
  {
    if |log| == 0 {
    } else {
      LastWriteIn(log[..|log| - 1], key);
    }
  }

  lemma LiveInItems(cfg: Config, items: Items, log: seq<Write>, now: int)
    requires Refines(cfg, items, log, now)
    ensures LiveKeys(cfg, log, now) == Purged(items, now).Keys
  {
    forall k
      ensures k in LiveKeys(cfg, log, now) <==> k in Purged(items, now).Keys
    {
      LastWriteIn(log, k);
    }
  }

  lemma LastWriteSnoc(log: seq<Write>, w: Write, key: string)
    ensures LastWrite(log + [w], key) == if w.key == key then Some(w) else LastWrite(log, key)
  {
    assert (log + [w])[..|log|] == log;
  }

  /** Purging a full map drops expired entries only, and leaves room exactly when fewer than max keys are live. */
  lemma KeptStep(cfg: Config, items: Items, log: seq<Write>, now: int)
    requires Refines(cfg, items, log, now)
    ensures var kept := if |items| >= cfg.max then Purged(items, now) else items;
      Refines(cfg, kept, log, now) && (|kept| < cfg.max <==> |LiveKeys(cfg, log, now)| < cfg.max)
  {
    LiveInItems(cfg, items, log, now);
    hide LastWrite, LiveKeys;
    assert Purged(items, now).Keys <= items.Keys;
    SubsetSize(Purged(items, now).Keys, items.Keys);
  }

  lemma SetStep(cfg: Config, items: Items, log: seq<Write>, clock: int, key: string, resp: Option<Response>,
      now: int, later: int)
    requires Refines(cfg, items, log, clock) && clock <= now <= later
    ensures Refines(cfg, AfterSet(cfg, items, key, resp, now, later), Logged(cfg, log, key, resp, now, later), later)
  {
    hide Refines, LiveKeys, Purged;
    Later(cfg, items, log, clock, now);
    Later(cfg, items, log, clock, later);
    KeptStep(cfg, items, log, now);
    var kept := if |items| >= cfg.max then Purged(items, now) else items;
    Later(cfg, kept, log, now, later);
    if Accepted(cfg, log, resp, now) {
      assert |kept| < cfg.max;
      WriteStep(cfg, kept, log, key, resp.value, later);
    }
  }

  lemma WriteStep(cfg: Config, items: Items, log: seq<Write>, key: string, resp: Response, later: int)
    requires Refines(cfg, items, log, later) && |items| < cfg.max && cfg.json.marshal(resp).Some?
    ensures Refines(cfg, items[key := Entry(cfg.json.marshal(resp).value, later + cfg.ttl)],
                    log + [Write(key, resp, later)], later)
  {
    hide LastWrite;
    forall k
      ensures LastWrite(log + [Write(key, resp, later)], k) ==
        if key == k then Some(Write(key, resp, later)) else LastWrite(log, k)
    {
      LastWriteSnoc(log, Write(key, resp, later), k);
    }
  }

  // ---------- Whole histories ----------

  datatype Op =
    | GetOp(key: string, now: int)
    | SetOp(key: string, resp: Option<Response>, now: int, later: int)

  function End(op: Op): int {
    if op.SetOp? then op.later else op.now
  }

  /** The clock never goes back. */
  ghost predicate Monotone(ops: seq<Op>) {
    forall i :: 0 <= i < |ops| ==> ops[i].now <= End(ops[i]) && (i > 0 ==> End(ops[i - 1]) <= ops[i].now)
  }

  function Clock(ops: seq<Op>, start: int): int {
    if |ops| == 0 then start else End(ops[|ops| - 1])
  }

  /** The map and the answers after a history. */
  function Execute(cfg: Config, ops: seq<Op>): (Items, seq<Option<Response>>) {
    if |ops| == 0 then (map[], []) else
    var (items, answers) := Execute(cfg, ops[..|ops| - 1]);
    match ops[|ops| - 1]
    case GetOp(key, now) => (AfterGet(cfg, items, key, now).0, answers + [AfterGet(cfg, items, key, now).1])
    case SetOp(key, resp, now, later) => (AfterSet(cfg, items, key, resp, now, later), answers)
  }

  /** The log and the answers it calls for. */
  function Replay(cfg: Config, ops: seq<Op>): (seq<Write>, seq<Option<Response>>) {
    if |ops| == 0 then ([], []) else
    var (log, answers) := Replay(cfg, ops[..|ops| - 1]);
    match ops[|ops| - 1]
    case GetOp(key, now) => (log, answers + [Found(cfg, log, key, now)])
    case SetOp(key, resp, now, later) => (Logged(cfg, log, key, resp, now, later), answers)
  }

  /**
   Over every history with a monotone clock, the cache answers what the log of accepted writes says, never holds
   more than max entries, and keeps every live write; a write is accepted exactly when fewer than max keys are live.
   */
  lemma {:induction false} CacheRefinesLog(cfg: Config, ops: seq<Op>, start: int)
    requires cfg.json.Valid() && Monotone(ops) && (|ops| > 0 ==> start <= ops[0].now)
    ensures var (items, answers) := Execute(cfg, ops);
      var (log, called) := Replay(cfg, ops);
      answers == called && Refines(cfg, items, log, Clock(ops, start))
  {
    if |ops| == 0 {
    } else {
      var init, op := ops[..|ops| - 1], ops[|ops| - 1];
      CacheRefinesLog(cfg, init, start);
      var (items, _) := Execute(cfg, init);
      var (log, _) := Replay(cfg, init);
      assert Clock(init, start) <= op.now;
      match op
      case GetOp(key, now) => GetStep(cfg, items, log, Clock(init, start), key, now);
      case SetOp(key, resp, now, later) => SetStep(cfg, items, log, Clock(init, start), key, resp, now, later);
    }
  }

  // ---------- Keys ----------

  /** What is hashed: the token's decimal number, a zero byte, the body. */
  function Framed(tokenId: int, body: string): string {
    Numeral(tokenId) + ['\0'] + body
  }

  function Key(hash: string -> string, tokenId: int, body: string): string {
    hash(Framed(tokenId, body))
  }

  ghost predicate Injective(hash: string -> string) {
    forall a, b :: hash(a) == hash(b) ==> a == b
  }

  lemma FramingInjective(t1: int, b1: string, t2: int, b2: string)
    requires Framed(t1, b1) == Framed(t2, b2)
    ensures t1 == t2 && b1 == b2
  {
    NumeralSign(t1);
    NumeralSign(t2);
    var f1, f2 := Framed(t1, b1), Framed(t2, b2);
    var n1, n2 := |Numeral(t1)|, |Numeral(t2)|;
    assert f1[n1] == '\0' && f2[n2] == '\0';
    assert forall i :: 0 <= i < n1 ==> f1[i] == Numeral(t1)[i];
    assert forall i :: 0 <= i < n2 ==> f2[i] == Numeral(t2)[i];
    assert n1 == n2;
    assert f1[..n1] == Numeral(t1) && f2[..n1] == Numeral(t2);
    assert f1[n1 + 1..] == b1 && f2[n1 + 1..] == b2;
    NumeralInjective(t1, t2);
  }

  /** Keys are equal exactly for the same token and the same body, given a hash without collisions. */
  lemma KeyInjective(hash: string -> string, t1: int, b1: string, t2: int, b2: string)
    requires Injective(hash)
    ensures Key(hash, t1, b1) == Key(hash, t2, b2) <==> t1 == t2 && b1 == b2
  {
    if Key(hash, t1, b1) == Key(hash, t2, b2) {
      FramingInjective(t1, b1, t2, b2);
    }
  }
}
