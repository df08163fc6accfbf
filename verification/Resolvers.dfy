/** Asking public resolvers what they block: what a status rests on, for how
    long it is remembered, and how long an address that fails is left alone. */
module Resolvers {
  import opened Wrappers
  import opened Names

  /** Milliseconds, of a clock that is read again whenever it matters. */
  type Time = int

  /** Extended DNS Error codes, sections 4.16 to 4.18 of RFC 8914. */
  const BLOCKED_CODE := 15
  const CENSORED_CODE := 16
  const FILTERED_CODE := 17
  const BLOCK_CODES := {BLOCKED_CODE, CENSORED_CODE, FILTERED_CODE}

  const FAMILY := Ascii("cloudflare-family")
  const FAILURES_TO_BACK_OFF := 3
  const MAX_BACKOFF: Time := 900_000

  /** A provider: what its block is a vote for, the roles of its filtering and
      its unfiltered resolver, the code of its block, and whether a blocked name
      comes back NXDOMAIN or as 0.0.0.0. */
  datatype Provider = Provider(name: Text, publisher: Text, vote: Text, role: string, unfiltered: string,
                               code: int, missing: bool)

  const MALICIOUS := Ascii("malicious")
  const PORN := Ascii("porn")

  /** The providers there are, in the order they are asked. */
  const PROVIDERS := [
    Provider(Ascii("quad9"), Ascii("quad9"), MALICIOUS, "quad9", "quad9_unfiltered", FILTERED_CODE, true),
    Provider(Ascii("cloudflare-security"), Ascii("cloudflare"), MALICIOUS, "cloudflare_security",
             "cloudflare_unfiltered", CENSORED_CODE, false),
    Provider(FAMILY, Ascii("cloudflare"), PORN, "cloudflare_family", "cloudflare_unfiltered", FILTERED_CODE, false)]

  datatype Answer = Answer(rcode: string, codes: set<int>, zero: bool)

  /** What came of one query: an answer, or none in time or at all. */
  datatype Reply = Replied(answer: Answer) | TimedOut | Failed

  /** What the configuration and the world outside decide: the address of each
      role, what the clock reads each time it is read, and what comes of each query. */
  datatype Network = Network(address: string -> string, clock: nat -> Time, replies: nat -> Reply)

  datatype Status =
    | Blocked | Clear | Missing | Security | Censored
    | Timeout | Error | Unavailable | Deadline | Transient(rcode: string)

  predicate Settled(s: Status) {
    s.Blocked? || s.Clear? || s.Missing? || s.Security? || s.Censored?
  }

  predicate Settles(a: Answer) {
    a.rcode == "NOERROR" || a.rcode == "NXDOMAIN"
  }

  /** The answer has exactly the shape of the provider's block. */
  predicate Blocks(p: Provider, a: Answer) {
    p.code in a.codes && if p.missing then a.rcode == "NXDOMAIN" else a.rcode == "NOERROR" && a.zero
  }

  /** The answer 1.1.1.3 gives for the malware it shares with 1.1.1.2. */
  predicate Malware(p: Provider, a: Answer) {
    p.name == FAMILY && a.zero && CENSORED_CODE in a.codes
  }

  /** One query that was sent: to which address, for which host, and how often the clock had been read by then. */
  datatype Query = Query(address: string, host: Text, tick: nat)

  /** A status that was settled: on the answers to which queries, and at which reading of the clock. */
  datatype Settlement = Settlement(provider: Provider, host: Text, status: Status, noted: nat,
                                   filtered: nat, unfiltered: Option<nat>)

  /** The address was asked for this host before the status was noted, and gave an answer. */
  predicate Told(net: Network, asked: seq<Query>, n: nat, role: string, s: Settlement) {
    && n < |asked| && asked[n].address == net.address(role) && asked[n].host == s.host && asked[n].tick <= s.noted
    && net.replies(n).Replied? && Settles(net.replies(n).answer)
  }

  /** What each status says of the answers it rests on, all of which came. A
      block counts only beside an unfiltered answer that says nothing of blocking. */
  predicate Justified(net: Network, asked: seq<Query>, s: Settlement) {
    && Told(net, asked, s.filtered, s.provider.role, s)
    && var a := net.replies(s.filtered).answer;
       if Blocks(s.provider, a) then
         && s.unfiltered.Some? && s.filtered < s.unfiltered.value
         && Told(net, asked, s.unfiltered.value, s.provider.unfiltered, s)
         && s.status == if net.replies(s.unfiltered.value).answer.codes !! BLOCK_CODES then Blocked else Censored
       else match s.status
            case Security => Malware(s.provider, a)
            case Missing => !Malware(s.provider, a) && a.rcode == "NXDOMAIN"
            case Clear => !Malware(s.provider, a) && a.rcode == "NOERROR"
            case _ => false
  }

  type Key = (Provider, Text)

  /** The status was settled a lifetime before it expires. */
  ghost predicate RestsOn(history: set<Settlement>, clock: nat -> Time, ttl: nat, key: Key, expires: Time,
                          status: Status)
  {
    exists s <- history :: (s.provider, s.host) == key && s.status == status && clock(s.noted) + ttl == expires
  }

  /** At most so many keys, each once, each with a settled status and what it rests on. */
  ghost predicate KeptBy(order: seq<Key>, cache: map<Key, (Time, Status)>, history: set<Settlement>,
                         clock: nat -> Time, ttl: nat, limit: nat)
  {
    && Distinct(order) && |order| <= limit && (forall key :: key in cache <==> key in order)
    && forall key <- cache ::
         Settled(cache[key].1) && RestsOn(history, clock, ttl, key, cache[key].0, cache[key].1)
  }

  lemma DropKept(order: seq<Key>, cache: map<Key, (Time, Status)>, history: set<Settlement>,
                 clock: nat -> Time, ttl: nat, limit: nat, i: nat)
    requires KeptBy(order, cache, history, clock, ttl, limit) && limit > 0 && i < |order|
    ensures KeptBy(order[..i] + order[i + 1..], cache - {order[i]}, history, clock, ttl, limit - 1)
  {
    Without(order, i);
  }

  lemma MoreKept(order: seq<Key>, cache: map<Key, (Time, Status)>, history: set<Settlement>,
                 clock: nat -> Time, ttl: nat, limit: nat, key: Key, expires: Time, status: Status)
    requires KeptBy(order, cache, history, clock, ttl, limit) && key !in cache
    requires Settled(status) && RestsOn(history, clock, ttl, key, expires, status)
    ensures KeptBy(order + [key], cache[key := (expires, status)], history, clock, ttl, limit + 1)
  {
    With(order, key);
  }

  lemma MoreHistory(order: seq<Key>, cache: map<Key, (Time, Status)>, history: set<Settlement>,
                    clock: nat -> Time, ttl: nat, limit: nat, s: Settlement)
    requires KeptBy(order, cache, history, clock, ttl, limit)
    ensures KeptBy(order, cache, history + {s}, clock, ttl, limit)
  {
    forall key <- cache ensures RestsOn(history + {s}, clock, ttl, key, cache[key].0, cache[key].1) {
      assert RestsOn(history, clock, ttl, key, cache[key].0, cache[key].1);
    }
  }

  /** All of these are kept, or all but the oldest when that is one too many. */
  predicate Latest(order: seq<Key>, cache: map<Key, (Time, Status)>, all: seq<Key>, known: map<Key, (Time, Status)>,
                   limit: nat)
    requires all != []
  {
    if |all| > limit then order == all[1..] && cache == known - {all[0]} else order == all && cache == known
  }

  lemma LatestKept(order: seq<Key>, cache: map<Key, (Time, Status)>, all: seq<Key>, known: map<Key, (Time, Status)>,
                   limit: nat)
    requires all != [] && Latest(order, cache, all, known, limit) && all[|all| - 1] in known
    requires forall key :: key in cache <==> key in order
    ensures limit > 0 ==> all[|all| - 1] in cache && cache[all[|all| - 1]] == known[all[|all| - 1]]
  {
    if limit > 0 { assert order[|order| - 1] == all[|all| - 1]; }
  }

  lemma StillJustified(net: Network, was: seq<Query>, now: seq<Query>, history: set<Settlement>)
    requires was <= now && forall s <- history :: Justified(net, was, s)
    ensures forall s <- history :: Justified(net, now, s)
  {
  }

  /** The keys without this one, in their order. */
  function Others(order: seq<Key>, key: Key): seq<Key> {
    if order == [] then []
    else
      var n := |order| - 1;
      Others(order[..n], key) + if order[n] == key then [] else [order[n]]
  }

  lemma {:induction false} OthersAll(order: seq<Key>, key: Key)
    requires key !in order
    ensures Others(order, key) == order
  {
    if order != [] {
      var n := |order| - 1;
      assert order == order[..n] + [order[n]];
      OthersAll(order[..n], key);
    }
  }

  lemma {:induction false} OthersAt(order: seq<Key>, i: nat)
    requires Distinct(order) && i < |order|
    ensures Others(order, order[i]) == order[..i] + order[i + 1..]
  {
    var n := |order| - 1;
    if i == n {
      OthersAll(order[..n], order[i]);
    } else {
      OthersAt(order[..n], i);
      assert order[..n][..i] == order[..i] && order[..n][i + 1..] + [order[n]] == order[i + 1..];
    }
  }

  function Doubled(base: nat, times: nat): nat {
    if times == 0 then base else 2 * Doubled(base, times - 1)
  }

  /** Of each address, how often it failed and was backed off in a row, and until when it rests. */
  datatype Standing = Standing(failures: map<string, nat>, backoffs: map<string, nat>,
                               restingUntil: map<string, Time>)
  {

    /** One failure more. From the third in a row on, the address is left alone,
        each time twice as long, up to a limit. */
    function Failed(address: string, now: Time, backoff: nat): Standing {
      var failed := failures[address := CountOf(failures, address) + 1];
      if failed[address] < FAILURES_TO_BACK_OFF then this.(failures := failed)
      else
        var times := CountOf(backoffs, address);
        Standing(failed, backoffs[address := times + 1],
                 restingUntil[address := now + Min(MAX_BACKOFF, Doubled(backoff, times))])
    }

    function Answered(address: string): Standing {
      this.(failures := failures - {address}, backoffs := backoffs - {address})
    }

    predicate Resting(address: string, now: Time) {
      address in restingUntil && now < restingUntil[address]
    }
  }

  /** The lookup's time is spent. */
  predicate Spent(timeout: nat, deadline: Option<Time>, now: Time) {
    deadline.Some? && Min(timeout, deadline.value - now) <= 0
  }

  /** One process's checker. */
  class Checker {
    const ttl: nat
    const maxEntries: nat
    const backoff: nat
    const timeout: nat
    const net: Network
    var ticks: nat
    var queries: nat
    /** Keys in the order they were last remembered. */
    var order: seq<Key>
    var cache: map<Key, (Time, Status)>
    var failures: map<string, nat>
    var backoffs: map<string, nat>
    var restingUntil: map<string, Time>
    /** Every query sent so far. */
    ghost var asked: seq<Query>
    /** Every status settled so far, with what it rests on. */
    ghost var history: set<Settlement>

    ghost predicate Remembered(key: Key, expires: Time, status: Status)
      reads this`history
    {
      RestsOn(history, net.clock, ttl, key, expires, status)
    }

    /** What is remembered was settled, a lifetime before it expires, and there
        is never too much of it; everything settled rests on answers that came. */
    ghost predicate Valid()
      reads this`order, this`cache, this`history, this`asked, this`queries, this`ticks
    {
      Kept(maxEntries) && |asked| == queries && AllJustified()
    }

    ghost predicate Kept(limit: nat)
      reads this`order, this`cache, this`history
    {
      KeptBy(order, cache, history, net.clock, ttl, limit)
    }

    ghost predicate AllJustified()
      reads this`history, this`asked, this`ticks
    {
      forall s <- history :: s.noted < ticks && Justified(net, asked, s)
    }

    function Standings(): Standing
      reads this`failures, this`backoffs, this`restingUntil
    {
      Standing(failures, backoffs, restingUntil)
    }

    constructor (ttl: nat, maxEntries: nat, backoff: nat, timeout: nat, net: Network)
      ensures Valid() && cache == map[] && history == {} && asked == []
      ensures this.ttl == ttl && this.maxEntries == maxEntries && this.backoff == backoff && this.timeout == timeout
      ensures this.net == net && Standings() == Standing(map[], map[], map[])
    {
      this.ttl, this.maxEntries, this.backoff, this.timeout := ttl, maxEntries, backoff, timeout;
      this.net := net;
      ticks, queries, asked, order, cache, history := 0, 0, [], [], map[], {};
      failures, backoffs, restingUntil := map[], map[], map[];
    }

    method Now() returns (t: Time)
      modifies this`ticks
      ensures t == net.clock(old(ticks)) && ticks == old(ticks) + 1
    {
      t := net.clock(ticks);
      ticks := ticks + 1;
    }

    /** A status remembered and not yet expired; one that has expired is forgotten. */
    method Cached(key: Key) returns (status: Option<Status>)
      requires Valid()
      modifies this`ticks, this`order, this`cache
      ensures Valid()
      ensures var hit := key in old(cache) && net.clock(old(ticks)) < old(cache)[key].0;
              && status == (if hit then Some(old(cache)[key].1) else None)
              && order == (if hit then old(order) else Others(old(order), key))
              && cache == (if hit then old(cache) else old(cache) - {key})
      ensures ticks == old(ticks) + if key in old(cache) then 1 else 0
    {
      if key !in cache {
        OthersAll(order, key);
        assert cache - {key} == cache;
        return None;
      }
      var now := Now();
      var (expires, found) := cache[key];
      if expires > now { return Some(found); }
      Forget(key);
      status := None;
    }

    method Forget(key: Key)
      requires Kept(maxEntries)
      modifies this`order, this`cache
      ensures Kept(maxEntries) && key !in cache && |order| <= |old(order)|
      ensures order == Others(old(order), key) && cache == old(cache) - {key}
    {
      if key !in cache {
        OthersAll(order, key);
        assert cache - {key} == cache;
        return;
      }
      var i :| 0 <= i < |order| && order[i] == key;
      OthersAt(order, i);
      DropKept(order, cache, history, net.clock, ttl, maxEntries + 1, i);
      order, cache := order[..i] + order[i + 1..], cache - {key};
    }

    /** Remembers a settled status as the latest. There is at most one too many then, and the oldest goes. */
    method Remember(key: Key, status: Status)
      requires Kept(maxEntries) && Settled(status) && Remembered(key, net.clock(ticks) + ttl, status)
      modifies this`ticks, this`order, this`cache
      ensures Kept(maxEntries)
      ensures ticks == old(ticks) + 1
      ensures LastOf(Others(old(order), key) + [key], old(cache)[key := (net.clock(old(ticks)) + ttl, status)])
    {
      ghost var all, known := Others(order, key) + [key], cache[key := (net.clock(ticks) + ttl, status)];
      Forget(key);
      var now := Now();
      Append(key, now + ttl, status);
      assert order == all && cache == known;
      if |order| > maxEntries { Evict(); }
    }

    ghost predicate LastOf(all: seq<Key>, known: map<Key, (Time, Status)>)
      requires all != []
      reads this`order, this`cache
    {
      Latest(order, cache, all, known, maxEntries)
    }

    method Append(key: Key, expires: Time, status: Status)
      requires Kept(maxEntries) && key !in cache && Settled(status) && Remembered(key, expires, status)
      modifies this`order, this`cache
      ensures Kept(maxEntries + 1) && order == old(order) + [key]
      ensures cache == old(cache)[key := (expires, status)]
    {
      MoreKept(order, cache, history, net.clock, ttl, maxEntries, key, expires, status);
      order, cache := order + [key], cache[key := (expires, status)];
    }

    method Evict()
      requires Kept(maxEntries + 1) && order != []
      modifies this`order, this`cache
      ensures Kept(maxEntries) && cache == old(cache) - {old(order)[0]} && order == old(order)[1..]
    {
      DropKept(order, cache, history, net.clock, ttl, maxEntries + 1, 0);
      assert order[..0] + order[1..] == order[1..];
      order, cache := order[1..], cache - {order[0]};
    }

    method NoteFailure(address: string)
      modifies this`ticks, this`failures, this`backoffs, this`restingUntil
      ensures Standings() == old(Standings()).Failed(address, net.clock(old(ticks)), backoff)
      ensures ticks == old(ticks) + if CountOf(failures, address) >= FAILURES_TO_BACK_OFF then 1 else 0
    {
      failures := failures[address := CountOf(failures, address) + 1];
      if failures[address] >= FAILURES_TO_BACK_OFF {
        backoffs := backoffs[address := CountOf(backoffs, address) + 1];
        var rest := Min(MAX_BACKOFF, Doubled(backoff, backoffs[address] - 1));
        var now := Now();
        restingUntil := restingUntil[address := now + rest];
      }
    }

    method NoteSuccess(address: string)
      modifies this`failures, this`backoffs
      ensures Standings() == old(Standings()).Answered(address)
    {
      failures, backoffs := failures - {address}, backoffs - {address};
    }

    /** Whether an address may be asked now: not while it rests, nor once the lookup's time is spent. */
    method MayAsk(address: string, deadline: Option<Time>) returns (refusal: Option<Status>)
      modifies this`ticks
      ensures ticks >= old(ticks)
      ensures refusal == if Standings().Resting(address, net.clock(old(ticks))) then Some(Unavailable)
                         else if Spent(timeout, deadline, net.clock(old(ticks) + 1)) then Some(Deadline) else None
      ensures refusal == Some(Unavailable) ==> ticks == old(ticks) + 1
      ensures refusal == Some(Deadline) ==> ticks == old(ticks) + 2
    {
      var now := Now();
      if address in restingUntil && now < restingUntil[address] { return Some(Unavailable); }
      if deadline.Some? {
        var again := Now();
        if Min(timeout, deadline.value - again) <= 0 { return Some(Deadline); }
      }
      refusal := None;
    }

    /** One query, unless the address is resting or the lookup's time is spent. */
    method Ask(role: string, host: Text, deadline: Option<Time>) returns (r: Result<Answer, Status>)
      requires |asked| == queries
      modifies this`ticks, this`queries, this`asked, this`failures, this`backoffs, this`restingUntil
      ensures |asked| == queries && ticks >= old(ticks)
      ensures var resting := old(Standings()).Resting(net.address(role), net.clock(old(ticks)));
              var spent := Spent(timeout, deadline, net.clock(old(ticks) + 1));
              && (resting ==> r == Err(Unavailable) && ticks > old(ticks))
              && (!resting && spent ==> r == Err(Deadline) && ticks > old(ticks) + 1)
              && (resting || spent ==> asked == old(asked) && Standings() == old(Standings()))
              && (!resting && !spent ==>
                    Sent(net.address(role), host, old(asked), old(ticks), old(Standings()), r))
      ensures asked != old(asked) && deadline.Some? ==> timeout > 0 && net.clock(old(ticks) + 1) < deadline.value
      ensures r == Err(Deadline) ==> deadline.Some? && (timeout == 0 || net.clock(old(ticks) + 1) >= deadline.value)
    {
      var address := net.address(role);
      var refusal := MayAsk(address, deadline);
      if refusal.Some? { return Err(refusal.value); }
      r := Send(address, host);
    }

    /** The address was asked this once, and what came of it is the reply and is noted against it. */
    ghost predicate Sent(address: string, host: Text, before: seq<Query>, since: nat, was: Standing,
                         r: Result<Answer, Status>)
      reads this`ticks, this`asked, this`failures, this`backoffs, this`restingUntil
    {
      exists tick | since <= tick <= ticks ::
        && asked == before + [Query(address, host, tick)]
        && match net.replies(|before|)
           case Replied(answer) => r == Ok(answer) && Standings() == was.Answered(address)
           case TimedOut => r == Err(Timeout) && Standings() == was.Failed(address, net.clock(tick), backoff)
           case Failed => r == Err(Error) && Standings() == was.Failed(address, net.clock(tick), backoff)
    }

    method Send(address: string, host: Text) returns (r: Result<Answer, Status>)
      requires |asked| == queries
      modifies this`ticks, this`queries, this`asked, this`failures, this`backoffs, this`restingUntil
      ensures |asked| == queries && ticks >= old(ticks)
      ensures Sent(address, host, old(asked), old(ticks), old(Standings()), r)
    {
      var reply := net.replies(queries);
      ghost var q := Query(address, host, ticks);
      queries, asked := queries + 1, asked + [q];
      match reply
      case Replied(answer) =>
        NoteSuccess(address);
        r := Ok(answer);
      case TimedOut =>
        NoteFailure(address);
        r := Err(Timeout);
      case Failed =>
        NoteFailure(address);
        r := Err(Error);
      assert old(ticks) <= q.tick <= ticks;
    }

    /** One of the two addresses of the provider rests. */
    predicate RestsFor(p: Provider, was: Standing, now: Time) {
      was.Resting(net.address(p.role), now) || was.Resting(net.address(p.unfiltered), now)
    }

    /** Why nothing was settled: the last query's reply, an address that rests, or time that is spent. */
    ghost predicate Excused(status: Status, p: Provider, deadline: Option<Time>, since: nat, before: nat, was: Standing)
      reads this`ticks, this`asked
    {
      match status
      case Timeout => |asked| > before && net.replies(|asked| - 1) == TimedOut
      case Error => |asked| > before && net.replies(|asked| - 1) == Failed
      case Transient(rcode) =>
        |asked| > before && net.replies(|asked| - 1).Replied? && net.replies(|asked| - 1).answer.rcode == rcode
        && !Settles(net.replies(|asked| - 1).answer)
      case Unavailable =>
        exists n: nat | since <= n < ticks :: RestsFor(p, was, net.clock(n))
      case Deadline => exists n: nat | since <= n < ticks :: Spent(timeout, deadline, net.clock(n))
      case _ => false
    }

    lemma ExcusedSince(status: Status, p: Provider, deadline: Option<Time>, since: nat, before: nat, was: Standing,
                       since': nat, before': nat, was': Standing)
      requires Excused(status, p, deadline, since', before', was')
      requires since <= since' && before <= before' && was'.restingUntil == was.restingUntil
      ensures Excused(status, p, deadline, since, before, was)
    {
    }

    /** Asks one of the provider's resolvers for an answer that settles something. */
    method AskToSettle(p: Provider, role: string, host: Text, deadline: Option<Time>)
      returns (r: Result<Answer, Status>)
      requires |asked| == queries && (role == p.role || role == p.unfiltered)
      modifies this`ticks, this`queries, this`asked, this`failures, this`backoffs, this`restingUntil
      ensures |asked| == queries && ticks >= old(ticks) && old(asked) <= asked
      ensures r.Ok? ==> SettledNow(|old(asked)|, role, host, r.value) && restingUntil == old(restingUntil)
      ensures r.Err? ==> !Settled(r.error) && Excused(r.error, p, deadline, old(ticks), |old(asked)|, old(Standings()))
      ensures r.Err? && r.error.Transient? ==> r.error.rcode !in {"NOERROR", "NXDOMAIN"}
    {
      r := Ask(role, host, deadline);
      if r.Ok? && !Settles(r.value) { r := Err(Transient(r.value.rcode)); }
    }

    /** The last query, this one, was for that and was answered so. */
    ghost predicate SettledNow(n: nat, role: string, host: Text, a: Answer)
      reads this`asked, this`ticks
    {
      && |asked| == n + 1 && asked[n].address == net.address(role) && asked[n].host == host && asked[n].tick <= ticks
      && net.replies(n) == Replied(a) && Settles(a)
    }

    /** What the provider says of a host, asked now: a block is confirmed by its unfiltered resolver. */
    method Found(p: Provider, host: Text, deadline: Option<Time>) returns (status: Status, ghost rests: Settlement)
      requires |asked| == queries
      modifies this`ticks, this`queries, this`asked, this`failures, this`backoffs, this`restingUntil
      ensures |asked| == queries && ticks >= old(ticks) && old(asked) <= asked
      ensures Settled(status) ==>
        && rests.provider == p && rests.host == host && rests.status == status && rests.noted == ticks
        && rests.filtered == |old(asked)| && Justified(net, asked, rests)
      ensures !Settled(status) ==> Excused(status, p, deadline, old(ticks), |old(asked)|, old(Standings()))
      ensures status.Transient? ==> status.rcode !in {"NOERROR", "NXDOMAIN"}
    {
      ghost var m := queries;
      var first := AskToSettle(p, p.role, host, deadline);
      rests := Settlement(p, host, Error, ticks, m, None);
      if first.Err? { return first.error, rests; }
      var answer := first.value;
      if !Blocks(p, answer) {
        status := if p.name == FAMILY && answer.zero && CENSORED_CODE in answer.codes then Security
                  else if answer.rcode == "NXDOMAIN" then Missing else Clear;
        rests := rests.(status := status);
        return;
      }
      ghost var n, since, was := queries, ticks, Standings();
      var second := AskToSettle(p, p.unfiltered, host, deadline);
      if second.Err? {
        ExcusedSince(second.error, p, deadline, old(ticks), m, old(Standings()), since, n, was);
        return second.error, rests;
      }
      status := if second.value.codes !! BLOCK_CODES then Blocked else Censored;
      rests := rests.(status := status, noted := ticks, unfiltered := Some(n));
    }

    /** Settled with this status for this host, on answers that came. */
    ghost predicate Answers(s: Settlement, p: Provider, host: Text, status: Status)
      reads this`asked
    {
      s.provider == p && s.host == host && s.status == status && Justified(net, asked, s)
    }

    /** Remembers what was just settled. */
    method Settle(key: Key, status: Status, ghost rests: Settlement)
      requires Valid() && Settled(status) && Justified(net, asked, rests)
      requires (rests.provider, rests.host) == key && rests.status == status && rests.noted == ticks
      modifies this`ticks, this`order, this`cache, this`history
      ensures Valid() && history == old(history) + {rests} && ticks > old(ticks)
      ensures LastOf(Others(old(order), key) + [key], old(cache)[key := (net.clock(old(ticks)) + ttl, status)])
      ensures maxEntries > 0 ==> key in cache && cache[key].1 == status
    {
      ghost var known := cache[key := (net.clock(ticks) + ttl, status)];
      MoreHistory(order, cache, history, net.clock, ttl, maxEntries, rests);
      history := history + {rests};
      assert Remembered(key, net.clock(ticks) + ttl, status);
      Remember(key, status);
      LatestKept(order, cache, Others(old(order), key) + [key], known, maxEntries);
    }

    /** Remembered, and not yet expired. */
    predicate Known(key: Key)
      reads this`cache, this`ticks
    {
      key in cache && net.clock(ticks) < cache[key].0
    }

    /** What a provider says of a host, remembered or asked: a settled status
        always rests on answers of the right shape, which came in this very call,
        or in an earlier one noted less than a lifetime before. */
    method StatusOf(p: Provider, host: Text, deadline: Option<Time>) returns (status: Status)
      requires Valid()
      modifies this
      ensures Valid() && old(history) <= history && old(asked) <= asked && ticks >= old(ticks)
      ensures Settled(status) ==>
        exists s <- history :: Answers(s, p, host, status) && Recent(s, old(history), |old(asked)|, old(ticks))
      ensures Settled(status) && maxEntries > 0 ==> (p, host) in cache && cache[(p, host)].1 == status
      ensures old(Known((p, host))) ==> Settled(status) && asked == old(asked)
      ensures !Settled(status) ==> history == old(history) && (p, host) !in cache
      ensures !Settled(status) ==> Excused(status, p, deadline, old(ticks), |old(asked)|, old(Standings()))
    {
      var hit := Cached((p, host));
      if hit.Some? {
        ghost var expires := cache[(p, host)].0;
        assert Remembered((p, host), expires, hit.value);
        ghost var s :| s in history && (s.provider, s.host) == (p, host) && s.status == hit.value
                       && net.clock(s.noted) + ttl == expires;
        assert Answers(s, p, host, hit.value);
        return hit.value;
      }
      ghost var rests;
      ghost var before := asked;
      status, rests := Found(p, host, deadline);
      StillJustified(net, before, asked, history);
      if Settled(status) {
        Settle((p, host), status, rests);
        assert Answers(rests, p, host, status);
      }
    }

    ghost predicate Recent(s: Settlement, before: set<Settlement>, queries: nat, now: nat) {
      s.filtered >= queries || (s in before && net.clock(now) < net.clock(s.noted) + ttl)
    }
  }

  lemma With(order: seq<Key>, key: Key)
    requires Distinct(order) && key !in order
    ensures Distinct(order + [key]) && forall k :: k in order + [key] <==> k in order || k == key
  {
  }

  lemma Without(order: seq<Key>, i: nat)
    requires Distinct(order) && i < |order|
    ensures Distinct(order[..i] + order[i + 1..])
    ensures forall key :: key in order[..i] + order[i + 1..] <==> key in order && key != order[i]
  {
    var rest := order[..i] + order[i + 1..];
    forall key ensures key in rest <==> key in order && key != order[i] {
      if key in order && key != order[i] {
        var j :| 0 <= j < |order| && order[j] == key;
        assert rest[if j < i then j else j - 1] == key;
      }
      if key in rest {
        var j :| 0 <= j < |rest| && rest[j] == key;
        assert order[if j < i then j else j + 1] == key;
      }
    }
  }

  // -- how long an address is left alone ------------------------------------------------

  /** What came of asking an address once, and when that was noted. */
  datatype Attempt = Attempt(address: string, answered: bool, at: Time)

  /** What is noted of all addresses after these attempts. */
  function StandingAfter(attempts: seq<Attempt>, backoff: nat): Standing {
    if attempts == [] then Standing(map[], map[], map[])
    else
      var n := |attempts| - 1;
      var before, a := StandingAfter(attempts[..n], backoff), attempts[n];
      if a.answered then before.Answered(a.address) else before.Failed(a.address, a.at, backoff)
  }

  /** How often the address failed since it last answered. */
  function InRow(attempts: seq<Attempt>, address: string): nat {
    if attempts == [] then 0
    else
      var n := |attempts| - 1;
      if attempts[n].address != address then InRow(attempts[..n], address)
      else if attempts[n].answered then 0 else InRow(attempts[..n], address) + 1
  }

  /** When it last failed. */
  function LastFailed(attempts: seq<Attempt>, address: string): Time {
    if attempts == [] then 0
    else
      var n := |attempts| - 1;
      if attempts[n].address == address && !attempts[n].answered then attempts[n].at
      else LastFailed(attempts[..n], address)
  }

  /** How long it rests after so many failures in a row: the back-off after the
      third, twice as long after each one more, and a quarter of an hour at most. */
  function RestAfter(row: nat, backoff: nat): Time
    requires row >= 3
  {
    if row == 3 then Min(900_000, backoff) else Min(900_000, 2 * RestAfter(row - 1, backoff))
  }

  lemma {:induction false} RestIs(row: nat, backoff: nat)
    requires row >= 3
    ensures RestAfter(row, backoff) == Min(MAX_BACKOFF, Doubled(backoff, row - 3)) >= 0
  {
    if row > 3 { RestIs(row - 1, backoff); }
  }

  lemma {:induction false} Counts(attempts: seq<Attempt>, address: string, backoff: nat)
    ensures var s, row := StandingAfter(attempts, backoff), InRow(attempts, address);
            && CountOf(s.failures, address) == row
            && CountOf(s.backoffs, address) == Max(0, row - 2)
            && (row >= 3 ==>
                  && address in s.restingUntil
                  && s.restingUntil[address] == LastFailed(attempts, address) + RestAfter(row, backoff))
  {
    if attempts != [] {
      var n := |attempts| - 1;
      Counts(attempts[..n], address, backoff);
      var row := InRow(attempts, address);
      if row >= 3 { RestIs(row, backoff); }
    }
  }

  /** Three failures in a row, or more, and the address is left alone until that rest has passed, and no longer. */
  lemma RestsUntil(attempts: seq<Attempt>, address: string, backoff: nat, now: Time)
    requires InRow(attempts, address) >= 3
    ensures StandingAfter(attempts, backoff).Resting(address, now)
            <==> now < LastFailed(attempts, address) + RestAfter(InRow(attempts, address), backoff)
  {
    Counts(attempts, address, backoff);
  }

  /** An address that never failed three times in a row never rests. */
  lemma {:induction false} NeverRests(attempts: seq<Attempt>, address: string, backoff: nat, now: Time)
    requires forall k | 0 <= k <= |attempts| :: InRow(attempts[..k], address) < 3
    ensures !StandingAfter(attempts, backoff).Resting(address, now)
    ensures address !in StandingAfter(attempts, backoff).restingUntil
  {
    if attempts != [] {
      var n := |attempts| - 1;
      assert attempts[..|attempts|] == attempts;
      forall k | 0 <= k <= n ensures InRow(attempts[..n][..k], address) < 3 {
        assert attempts[..n][..k] == attempts[..k];
      }
      NeverRests(attempts[..n], address, backoff, now);
      Counts(attempts[..n], address, backoff);
    }
  }

  // -- what a block is ------------------------------------------------------------------

  /** What a name is taken to be blocked on, resolver by resolver: Quad9 says it
      does not exist, with the code for filtering; Cloudflare's answers with
      0.0.0.0, with the code for censoring or, where families are kept safe, for
      filtering; and the resolver beside it that filters nothing answers with none of the three. */
  lemma BlockedMeans(net: Network, asked: seq<Query>, s: Settlement)
    requires Justified(net, asked, s) && s.status.Blocked?
    ensures var a := net.replies(s.filtered).answer;
            && (s.provider == PROVIDERS[0] ==>
                  a.rcode == "NXDOMAIN" && 17 in a.codes && asked[s.filtered].address == net.address("quad9"))
            && (s.provider == PROVIDERS[1] ==>
                  && a.rcode == "NOERROR" && a.zero && 16 in a.codes
                  && asked[s.filtered].address == net.address("cloudflare_security"))
            && (s.provider == PROVIDERS[2] ==>
                  && a.rcode == "NOERROR" && a.zero && 17 in a.codes
                  && asked[s.filtered].address == net.address("cloudflare_family"))
    ensures s.unfiltered.Some? && s.unfiltered.value < |asked|
    ensures var b := net.replies(s.unfiltered.value);
            b.Replied? && b.answer.rcode in {"NOERROR", "NXDOMAIN"} && b.answer.codes !! {15, 16, 17}
    ensures var address := asked[s.unfiltered.value].address;
            && (s.provider == PROVIDERS[0] ==> address == net.address("quad9_unfiltered"))
            && (s.provider in {PROVIDERS[1], PROVIDERS[2]} ==> address == net.address("cloudflare_unfiltered"))
    ensures asked[s.filtered].host == s.host && asked[s.unfiltered.value].host == s.host
  {
    assert BLOCK_CODES == {15, 16, 17};
  }

  /** A name the resolver that filters nothing blocks too is not the provider's block. */
  lemma CensoredMeans(net: Network, asked: seq<Query>, s: Settlement)
    requires Justified(net, asked, s) && s.status.Censored?
    ensures s.unfiltered.Some? && net.replies(s.unfiltered.value).Replied?
    ensures var codes := net.replies(s.unfiltered.value).answer.codes; 15 in codes || 16 in codes || 17 in codes
  {
    assert BLOCK_CODES == {15, 16, 17};
  }

  /** And what none of them is: an answer of the shape of none of these. */
  lemma ClearMeans(net: Network, asked: seq<Query>, s: Settlement)
    requires Justified(net, asked, s) && (s.status.Clear? || s.status.Missing? || s.status.Security?)
    ensures var a := net.replies(s.filtered).answer;
            && a.rcode == (if s.status.Missing? then "NXDOMAIN" else if s.status.Clear? then "NOERROR" else a.rcode)
            && !(s.provider.code in a.codes && s.provider.missing && a.rcode == "NXDOMAIN")
            && !(s.provider.code in a.codes && !s.provider.missing && a.rcode == "NOERROR" && a.zero)
            && (s.status.Security? <==> s.provider.name == Ascii("cloudflare-family") && a.zero && 16 in a.codes)
  {
  }
}
