/** Sending documents to OpenSearch, one by one or buffered, and when a batch
    of events may be acknowledged. */
module Shipping {
  import opened Wrappers

  type Doc = string

  /** Statuses that say the document itself is the problem. */
  const PERMANENT_STATUSES := {400, 409, 413}

  /** What a request to a host says of one document: taken, or refused with a status for each
      operation, where a status may be missing. */
  datatype Fate = Taken | Refused(statuses: seq<Option<int>>)

  /** A refusal in a bulk answer that may clear. */
  predicate Retryable(fate: Fate) {
    fate.Refused? && exists s <- fate.statuses :: s.Some? && s.value !in PERMANENT_STATUSES
  }

  /** A single document refused for good: its error carries one of the permanent statuses. */
  predicate ForGood(fate: Fate) {
    fate.Refused? && |fate.statuses| == 1 && fate.statuses[0].Some? && fate.statuses[0].value in PERMANENT_STATUSES
  }

  datatype Failure = NotDelivered

  /** The documents of one answer that were taken, or refused in a way not classed as retryable. */
  function Kept(docs: seq<Doc>, n: nat, fate: (nat, nat) -> Fate): seq<Doc> {
    if docs == [] then []
    else Kept(docs[..|docs| - 1], n, fate) + if Retryable(fate(n, |docs| - 1)) then [] else [docs[|docs| - 1]]
  }

  lemma {:induction false} AllKept(docs: seq<Doc>, n: nat, fate: (nat, nat) -> Fate)
    requires forall i: nat | i < |docs| :: !Retryable(fate(n, i))
    ensures Kept(docs, n, fate) == docs
  {
    if docs != [] {
      AllKept(docs[..|docs| - 1], n, fate);
      assert docs == docs[..|docs| - 1] + [docs[|docs| - 1]];
    }
  }

  /** How many of the first documents an answer took. */
  function TakenOf(docs: nat, n: nat, fate: (nat, nat) -> Fate): nat {
    if docs == 0 then 0 else TakenOf(docs - 1, n, fate) + if fate(n, docs - 1).Taken? then 1 else 0
  }

  datatype Renewal = Renewed | TakenOver | NoAnswer

  /** One item of a batch: not readable, not kept, failing on its own account,
      failing because Valkey did not answer, or an event with its document. */
  datatype Item = Unreadable | Dropped | Failing | Unanswered | Event(doc: Doc)

  /** An item in hand, whether the name is due to be renewed before it and
      what comes of that, and whether the buffer is old enough to go after it. */
  datatype Step = Step(renewal: Option<Renewal>, item: Item, late: bool)

  function Docs(steps: seq<Step>): seq<Doc> {
    if steps == [] then []
    else Docs(steps[..|steps| - 1]) + if steps[|steps| - 1].item.Event? then [steps[|steps| - 1].item.doc] else []
  }

  datatype Outcome = Acknowledge(n: nat) | Requeue | NameLost | ValkeyDown

  /** What is sent to a host: many documents at once, or one by itself. */
  datatype Request = Bulk(docs: seq<Doc>) | Single(doc: Doc)

  /** The hosts, asked one after another: which requests get no answer at all,
      and what an answer says of each document. */
  datatype Cluster = Cluster(hosts: nat, fails: nat -> bool, fate: (nat, nat) -> Fate) {

    /** A single document is done with once a host takes it or refuses it for good. */
    predicate Final(n: nat) {
      fate(n, 0).Taken? || ForGood(fate(n, 0))
    }

    /** The documents the n-th request is done with, if it was answered at all. */
    function DoneBy(q: Request, n: nat): seq<Doc> {
      if fails(n) then []
      else match q
           case Bulk(docs) => Kept(docs, n, fate)
           case Single(doc) => if Final(n) then [doc] else []
    }

    /** The documents these requests, all there were so far, are done with. */
    function DoneIn(log: seq<Request>): multiset<Doc> {
      if log == [] then multiset{}
      else DoneIn(log[..|log| - 1]) + multiset(DoneBy(log[|log| - 1], |log| - 1))
    }

    /** The request was answered, and the answer took the document or did not refuse it in a way that may clear. */
    predicate Settled(q: Request, n: nat, doc: Doc) {
      && !fails(n)
      && match q
         case Bulk(docs) => exists i | 0 <= i < |docs| :: docs[i] == doc && !Retryable(fate(n, i))
         case Single(d) => d == doc && Final(n)
    }

    /** The request did not settle everything in it. */
    predicate InVain(q: Request, n: nat) {
      fails(n) || match q
                  case Bulk(docs) => exists i | 0 <= i < |docs| :: Retryable(fate(n, i))
                  case Single(_) => !Final(n)
    }

    /** The request was sent to one host after another, each but the last
        passing it on. It went well if the last settled all of it; if not, the
        last kept it without doing so, or there was no host left to pass it on to. */
    predicate Sent(was: seq<Request>, now: seq<Request>, q: Request, ok: bool) {
      && was <= now && |now| <= |was| + hosts
      && (forall n | |was| <= n < |now| :: now[n] == q)
      && (forall n | |was| <= n < |now| - 1 :: Passes(q, n))
      && if ok then |was| < |now| && !InVain(q, |now| - 1)
         else (|was| < |now| && InVain(q, |now| - 1) && !Passes(q, |now| - 1))
              || (|now| == |was| + hosts && (|was| < |now| ==> Passes(q, |now| - 1)))
    }

    /** The next host is asked: always for a single document that is not done
        with, and only when there was no answer for many. */
    predicate Passes(q: Request, n: nat) {
      if q.Bulk? then fails(n) else InVain(q, n)
    }

    /** Something was asked for in vain since then, or there is nobody to ask. */
    predicate Trouble(was: seq<Request>, now: seq<Request>) {
      hosts == 0 || exists n | |was| <= n < |now| :: InVain(now[n], n)
    }
  }

  lemma {:induction false} KeptSettled(docs: seq<Doc>, n: nat, fate: (nat, nat) -> Fate, doc: Doc)
    requires doc in Kept(docs, n, fate)
    ensures exists i | 0 <= i < |docs| :: docs[i] == doc && !Retryable(fate(n, i))
  {
    var k := |docs| - 1;
    if doc in Kept(docs[..k], n, fate) {
      KeptSettled(docs[..k], n, fate, doc);
      var i :| 0 <= i < k && docs[..k][i] == doc && !Retryable(fate(n, i));
      assert docs[i] == doc;
    } else {
      assert docs[k] == doc && !Retryable(fate(n, k));
    }
  }

  /** Whatever is done with goes back to a request that settled it. */
  lemma {:induction false} DoneWasSettled(c: Cluster, log: seq<Request>, doc: Doc) returns (n: nat)
    requires doc in c.DoneIn(log)
    ensures n < |log| && c.Settled(log[n], n, doc)
  {
    n := |log| - 1;
    if doc in c.DoneBy(log[n], n) {
      if log[n].Bulk? { KeptSettled(log[n].docs, n, c.fate, doc); }
    } else {
      n := DoneWasSettled(c, log[..n], doc);
    }
  }

  lemma {:induction false} DoneMore(c: Cluster, was: seq<Request>, now: seq<Request>)
    requires was <= now
    ensures c.DoneIn(was) <= c.DoneIn(now)
    decreases |now|
  {
    if was == now {
    } else {
      var n := |now| - 1;
      assert now == now[..n] + [now[n]];
      DoneMore(c, was, now[..n]);
    }
  }

  lemma PassedIsNothing(c: Cluster, q: Request, n: nat)
    requires c.Passes(q, n)
    ensures c.DoneBy(q, n) == []
  {
  }

  lemma DoneLast(c: Cluster, now: seq<Request>)
    requires now != []
    ensures var n := |now| - 1; c.DoneIn(now) == c.DoneIn(now[..n]) + multiset(c.DoneBy(now[n], n))
  {
  }

  /** Requests passed on are done with nothing. */
  lemma {:induction false} PassedOn(c: Cluster, was: seq<Request>, now: seq<Request>, q: Request)
    requires was <= now && forall n | |was| <= n < |now| :: now[n] == q && c.Passes(q, n)
    ensures c.DoneIn(now) == c.DoneIn(was)
    decreases |now|
  {
    if |now| == |was| {
      assert now == was;
    } else {
      var n := |now| - 1;
      PassedOn(c, was, now[..n], q);
      PassedIsNothing(c, q, n);
      DoneLast(c, now);
    }
  }

  function Asked(q: Request): seq<Doc> {
    match q
    case Bulk(docs) => docs
    case Single(doc) => [doc]
  }

  /** A request that went well is done with everything in it, once. */
  lemma SentWell(c: Cluster, was: seq<Request>, now: seq<Request>, q: Request)
    requires c.Sent(was, now, q, true)
    ensures c.DoneIn(now) == c.DoneIn(was) + multiset(Asked(q))
  {
    var n := |now| - 1;
    PassedOn(c, was, now[..n], q);
    if q.Bulk? { AllKept(q.docs, n, c.fate); }
    assert c.DoneBy(now[n], n) == Asked(q);
  }

  /** One that did not met with trouble; of many documents some may be done with all the same. */
  lemma SentIll(c: Cluster, was: seq<Request>, now: seq<Request>, q: Request)
    requires c.Sent(was, now, q, false)
    ensures c.Trouble(was, now) && c.DoneIn(was) <= c.DoneIn(now)
    ensures q.Single? ==> c.DoneIn(now) == c.DoneIn(was)
  {
    DoneMore(c, was, now);
    if q.Single? { PassedOn(c, was, now, q); }
    if |now| > |was| { assert c.InVain(now[|now| - 1], |now| - 1); }
  }

  // -- the same, told by the answers ------------------------------------------

  /** Nothing in what the answer says of the document asks to send it again: it was taken, or
      every status it was refused with is missing or says the document is the problem. */
  predicate Accepts(fate: Fate) {
    fate.Taken? || forall s <- fate.statuses :: s == None || s.value in {400, 409, 413}
  }

  /** What is said of a document sent by itself ends the matter. */
  predicate AcceptsOne(fate: Fate) {
    fate.Taken? || fate.statuses in {[Some(400)], [Some(409)], [Some(413)]}
  }

  /** The n-th request was answered, had the document in it, and nothing in the answer asks to send it again. */
  predicate Answered(c: Cluster, log: seq<Request>, n: nat, doc: Doc) {
    && n < |log| && !c.fails(n)
    && match log[n]
       case Bulk(docs) => exists i | 0 <= i < |docs| :: docs[i] == doc && Accepts(c.fate(n, i))
       case Single(d) => d == doc && AcceptsOne(c.fate(n, 0))
  }

  /** Such a request was sent since the log was so long. */
  ghost predicate AnsweredSince(c: Cluster, since: nat, log: seq<Request>, doc: Doc) {
    exists n: nat :: since <= n && Answered(c, log, n, doc)
  }

  /** A request since then got no answer, or one that asks to send some document again; or there is no host. */
  ghost predicate RefusedSince(c: Cluster, since: nat, log: seq<Request>) {
    c.hosts == 0 || exists n: nat | since <= n < |log| ::
      c.fails(n) || match log[n]
                    case Bulk(docs) => exists i | 0 <= i < |docs| :: !Accepts(c.fate(n, i))
                    case Single(_) => !AcceptsOne(c.fate(n, 0))
  }

  lemma RetryableMeans(fate: Fate)
    ensures Retryable(fate) <==> !Accepts(fate)
    ensures fate.Taken? || ForGood(fate) <==> AcceptsOne(fate)
  {
    if ForGood(fate) { assert fate.statuses == [fate.statuses[0]]; }
  }

  lemma SettledMeans(c: Cluster, log: seq<Request>, n: nat, doc: Doc)
    requires n < |log| && c.Settled(log[n], n, doc)
    ensures Answered(c, log, n, doc)
  {
    match log[n]
    case Bulk(docs) =>
      var i :| 0 <= i < |docs| && docs[i] == doc && !Retryable(c.fate(n, i));
      RetryableMeans(c.fate(n, i));
    case Single(_) => RetryableMeans(c.fate(n, 0));
  }

  lemma TroubleMeans(c: Cluster, was: seq<Request>, now: seq<Request>)
    requires c.Trouble(was, now)
    ensures RefusedSince(c, |was|, now)
  {
    if c.hosts > 0 {
      var n :| |was| <= n < |now| && c.InVain(now[n], n);
      if !c.fails(n) {
        match now[n]
        case Bulk(docs) =>
          var i :| 0 <= i < |docs| && Retryable(c.fate(n, i));
          RetryableMeans(c.fate(n, i));
        case Single(_) => RetryableMeans(c.fate(n, 0));
      }
    }
  }

  /** What is done with more often than before was answered for since. */
  lemma {:induction false} DoneSince(c: Cluster, was: seq<Request>, now: seq<Request>, doc: Doc)
    requires was <= now && c.DoneIn(now)[doc] > c.DoneIn(was)[doc]
    ensures AnsweredSince(c, |was|, now, doc)
    decreases |now|
  {
    var n := |now| - 1;
    assert now != was;
    if doc in c.DoneBy(now[n], n) {
      if now[n].Bulk? { KeptSettled(now[n].docs, n, c.fate, doc); }
      SettledMeans(c, now, n, doc);
    } else {
      DoneSince(c, was, now[..n], doc);
      var m: nat :| |was| <= m && Answered(c, now[..n], m, doc);
      assert Answered(c, now, m, doc);
    }
  }

  /** Every event's document was answered for since. */
  ghost predicate AllAnswered(c: Cluster, since: nat, log: seq<Request>, steps: seq<Step>) {
    forall s <- steps | s.item.Event? :: AnsweredSince(c, since, log, s.item.doc)
  }

  lemma {:induction false} DocIn(steps: seq<Step>, s: Step)
    requires s in steps && s.item.Event?
    ensures s.item.doc in Docs(steps)
  {
    var n := |steps| - 1;
    if s != steps[n] {
      assert steps == steps[..n] + [steps[n]];
      DocIn(steps[..n], s);
    }
  }

  lemma BatchAnswered(c: Cluster, was: seq<Request>, now: seq<Request>, steps: seq<Step>)
    requires was <= now && c.DoneIn(now) == c.DoneIn(was) + multiset(Docs(steps))
    ensures AllAnswered(c, |was|, now, steps)
  {
    forall s <- steps | s.item.Event? ensures AnsweredSince(c, |was|, now, s.item.doc) {
      DocIn(steps, s);
      assert s.item.doc in multiset(Docs(steps));
      DoneSince(c, was, now, s.item.doc);
    }
  }

  lemma AnsweredLonger(c: Cluster, since: nat, was: seq<Request>, now: seq<Request>, earlier: nat, steps: seq<Step>)
    requires earlier <= since && was <= now && AllAnswered(c, since, was, steps)
    ensures AllAnswered(c, earlier, now, steps)
  {
    forall s <- steps | s.item.Event? ensures AnsweredSince(c, earlier, now, s.item.doc) {
      var n: nat :| since <= n && Answered(c, was, n, s.item.doc);
      assert Answered(c, now, n, s.item.doc);
    }
  }

  /** What went well was answered for, each document of it; what did not was refused. */
  lemma SentMeans(c: Cluster, was: seq<Request>, now: seq<Request>, q: Request, ok: bool)
    requires c.Sent(was, now, q, ok)
    ensures ok ==> forall doc <- Asked(q) :: AnsweredSince(c, |was|, now, doc)
    ensures !ok ==> RefusedSince(c, |was|, now)
  {
    if ok {
      var n := |now| - 1;
      forall doc <- Asked(q) ensures AnsweredSince(c, |was|, now, doc) {
        if q.Bulk? { var i :| 0 <= i < |q.docs| && q.docs[i] == doc; }
        assert c.Settled(q, n, doc);
        SettledMeans(c, now, n, doc);
      }
    } else {
      SentIll(c, was, now, q);
      TroubleMeans(c, was, now);
    }
  }

  /** Every batch acknowledged so far was answered for. */
  ghost predicate BatchesAnswered(c: Cluster, since: nat, log: seq<Request>, batches: seq<seq<Step>>,
                                  outcomes: seq<Outcome>)
    requires |outcomes| <= |batches|
  {
    forall j | 0 <= j < |outcomes| && outcomes[j].Acknowledge? :: AllAnswered(c, since, log, batches[j])
  }

  lemma OneMoreAnswered(c: Cluster, since: nat, was: seq<Request>, now: seq<Request>, batches: seq<seq<Step>>,
                        outcomes: seq<Outcome>, outcome: Outcome)
    requires since <= |was| && was <= now && |outcomes| < |batches|
    requires BatchesAnswered(c, since, was, batches, outcomes)
    requires outcome.Acknowledge? ==> AllAnswered(c, |was|, now, batches[|outcomes|])
    ensures BatchesAnswered(c, since, now, batches, outcomes + [outcome])
  {
    var all := outcomes + [outcome];
    forall j | 0 <= j < |all| && all[j].Acknowledge? ensures AllAnswered(c, since, now, batches[j]) {
      if j < |outcomes| {
        AnsweredLonger(c, since, was, now, since, batches[j]);
      } else {
        AnsweredLonger(c, |was|, now, now, since, batches[j]);
      }
    }
  }

  /** How many documents an answer took. */
  lemma {:induction false} TakenCount(docs: nat, n: nat, fate: (nat, nat) -> Fate)
    ensures TakenOf(docs, n, fate) == |set i: nat | i < docs && fate(n, i).Taken?|
  {
    if docs > 0 {
      TakenCount(docs - 1, n, fate);
      var before, all := set i: nat | i < docs - 1 && fate(n, i).Taken?, set i: nat | i < docs && fate(n, i).Taken?;
      assert all == before + if fate(n, docs - 1).Taken? then {docs - 1} else {};
    }
  }

  lemma TroubleLonger(c: Cluster, first: seq<Request>, was: seq<Request>, now: seq<Request>)
    requires first <= was && c.Trouble(was, now)
    ensures c.Trouble(first, now)
  {
  }

  /** A consumer's processor. */
  class Processor {
    const elastic: bool
    const bulk: bool
    const size: nat
    const cluster: Cluster
    var requests: nat
    var buffer: seq<Doc>
    /** Every request sent so far. */
    ghost var log: seq<Request>

    ghost predicate Valid()
      reads this`requests, this`log
    {
      |log| == requests
    }

    /** Documents the requests so far are done with: taken by OpenSearch, or
        refused in a way not classed as retryable. */
    ghost function Done(): multiset<Doc>
      reads this`log
    {
      cluster.DoneIn(log)
    }

    constructor (elastic: bool, bulk: bool, size: nat, cluster: Cluster)
      ensures Valid() && buffer == [] && log == []
      ensures this.elastic == elastic && this.bulk == bulk && this.size == size && this.cluster == cluster
    {
      this.elastic, this.bulk, this.size, this.cluster := elastic, bulk, size, cluster;
      requests, buffer, log := 0, [], [];
    }

    /** What is buffered is not to go yet. */
    predicate Waits(force: bool, late: bool)
      reads this`buffer
    {
      buffer != [] && !force && |buffer| < size && !late
    }

    /** Sends what is buffered as one request, if it is to go now; a host that
        does not answer passes it on to the next. */
    method FlushBulk(force: bool, late: bool) returns (r: Result<nat, Failure>)
      requires Valid()
      modifies this`requests, this`buffer, this`log
      ensures Valid() && buffer == if old(Waits(force, late)) then old(buffer) else []
      ensures if old(buffer == [] || Waits(force, late)) then r == Ok(0) && log == old(log)
              else cluster.Sent(old(log), log, Bulk(old(buffer)), r.Ok?)
                   && (r.Ok? ==> r.value == TakenOf(|old(buffer)|, requests - 1, cluster.fate))
    {
      if buffer == [] { return Ok(0); }
      if !force && |buffer| < size && !late { return Ok(0); }
      var docs := buffer;
      buffer := [];
      r := SendAll(docs);
    }

    /** One more request is sent. */
    method Note(q: Request) returns (n: nat)
      requires Valid()
      modifies this`requests, this`log
      ensures Valid() && n == old(requests) && log == old(log) + [q]
    {
      n, requests, log := requests, requests + 1, log + [q];
    }

    /** One request for all of these documents, to one host after another until one answers. */
    method SendAll(docs: seq<Doc>) returns (r: Result<nat, Failure>)
      requires Valid()
      modifies this`requests, this`log
      ensures Valid() && cluster.Sent(old(log), log, Bulk(docs), r.Ok?)
      ensures requests == old(requests) + cluster.hosts || (requests > old(requests) && !cluster.fails(requests - 1))
      ensures r.Ok? ==> forall doc <- docs :: AnsweredSince(cluster, |old(log)|, log, doc)
      ensures r.Err? ==> RefusedSince(cluster, |old(log)|, log)
      ensures r.Ok? ==> r.value == TakenOf(|docs|, requests - 1, cluster.fate)
    {
      for host := 0 to cluster.hosts
        invariant Valid() && old(log) <= log && requests == old(requests) + host
        invariant forall n | old(requests) <= n < requests :: log[n] == Bulk(docs) && cluster.fails(n)
      {
        var n := Note(Bulk(docs));
        if cluster.fails(n) { continue; }
        var ok, retry := Weigh(docs, n);
        SentMeans(cluster, old(log), log, Bulk(docs), retry == 0);
        if retry > 0 { return Err(NotDelivered); }
        return Ok(ok);
      }
      SentMeans(cluster, old(log), log, Bulk(docs), false);
      r := Err(NotDelivered);
    }

    /** How many documents an answer took, and how many may be taken later. */
    method Weigh(docs: seq<Doc>, n: nat) returns (ok: nat, retry: nat)
      ensures ok == TakenOf(|docs|, n, cluster.fate)
      ensures retry == 0 <==> forall i: nat | i < |docs| :: !Retryable(cluster.fate(n, i))
      ensures retry == 0 <==> forall i: nat | i < |docs| :: Accepts(cluster.fate(n, i))
    {
      forall i: nat ensures Retryable(cluster.fate(n, i)) <==> !Accepts(cluster.fate(n, i)) {
        RetryableMeans(cluster.fate(n, i));
      }
      ok, retry := 0, 0;
      for i := 0 to |docs|
        invariant ok == TakenOf(i, n, cluster.fate)
        invariant retry == 0 <==> forall j: nat | j < i :: !Retryable(cluster.fate(n, j))
      {
        if cluster.fate(n, i).Taken? { ok := ok + 1; }
        else if Retryable(cluster.fate(n, i)) { retry := retry + 1; }
      }
    }

    /** Sends one document by itself: a host that takes it or refuses it for good ends the matter. */
    method SendOne(doc: Doc) returns (r: Result<nat, Failure>)
      requires Valid()
      modifies this`requests, this`log
      ensures Valid() && cluster.Sent(old(log), log, Single(doc), r.Ok?)
      ensures r.Err? ==> requests == old(requests) + cluster.hosts
      ensures r.Ok? ==> AnsweredSince(cluster, |old(log)|, log, doc)
      ensures r.Err? ==> RefusedSince(cluster, |old(log)|, log)
    {
      for host := 0 to cluster.hosts
        invariant Valid() && old(log) <= log && requests == old(requests) + host
        invariant forall n | old(requests) <= n < requests :: log[n] == Single(doc) && cluster.Passes(Single(doc), n)
      {
        var n := Note(Single(doc));
        if !cluster.fails(n) && (cluster.fate(n, 0).Taken? || ForGood(cluster.fate(n, 0))) {
          SentMeans(cluster, old(log), log, Single(doc), true);
          return Ok(1);
        }
      }
      SentMeans(cluster, old(log), log, Single(doc), false);
      r := Err(NotDelivered);
    }

    /** Between them the requests and the buffer have what they had, and these documents, unless something is amiss. */
    ghost predicate Handed(was: seq<Request>, waited: seq<Doc>, docs: multiset<Doc>, ok: bool)
      reads this`log, this`buffer
    {
      && was <= log
      && if ok then Done() + multiset(buffer) == cluster.DoneIn(was) + multiset(waited) + docs
         else cluster.Trouble(was, log)
    }

    /** Puts one document with those waiting, which go if there are enough of them. */
    method Buffer(doc: Doc, late: bool) returns (r: Result<nat, Failure>)
      requires Valid()
      modifies this`requests, this`buffer, this`log
      ensures Valid() && Handed(old(log), old(buffer), multiset{doc}, r.Ok?)
      ensures buffer == [] || (|buffer| < size && !late)
    {
      ghost var was := log;
      buffer := buffer + [doc];
      ghost var all := buffer;
      r := FlushBulk(false, late);
      if log != was || buffer == [] { Flushed(was, all, r.Ok?); }
    }

    /** Sends one event's document, or puts it with those waiting. */
    method ShipBite(doc: Doc, late: bool) returns (r: Result<nat, Failure>)
      requires Valid()
      modifies this`requests, this`buffer, this`log
      ensures Valid() && Handed(old(log), old(buffer), if elastic then multiset{doc} else multiset{}, r.Ok?)
      ensures !bulk || !elastic ==> buffer == old(buffer)
      ensures bulk && elastic ==> buffer == [] || (|buffer| < size && !late)
      ensures !elastic ==> log == old(log)
    {
      ghost var was := log;
      if !elastic { return Ok(0); }
      if bulk {
        r := Buffer(doc, late);
      } else {
        r := SendOne(doc);
        if r.Ok? { SentWell(cluster, was, log, Single(doc)); } else { SentIll(cluster, was, log, Single(doc)); }
      }
    }

    lemma Flushed(was: seq<Request>, docs: seq<Doc>, ok: bool)
      requires cluster.Sent(was, log, Bulk(docs), ok)
      ensures was <= log && if ok then Done() == cluster.DoneIn(was) + multiset(docs) else cluster.Trouble(was, log)
    {
      if ok { SentWell(cluster, was, log, Bulk(docs)); } else { SentIll(cluster, was, log, Bulk(docs)); }
    }

    method DiscardBulk()
      modifies this`buffer
      ensures buffer == []
    {
      buffer := [];
    }

    /** Renews the name if that is due, then handles one item; nothing is left
        waiting when the batch is to be handled again from the start. */
    method HandleItem(s: Step) returns (stopped: Option<Outcome>)
      requires Valid()
      modifies this`requests, this`buffer, this`log
      ensures Valid() && old(log) <= log
      ensures stopped.None? ==>
        Handed(old(log), old(buffer), if elastic && s.item.Event? then multiset{s.item.doc} else multiset{}, true)
      ensures stopped.Some? ==> !stopped.value.Acknowledge? && (stopped.value != NameLost ==> buffer == [])
      ensures stopped == Some(NameLost) <==> s.renewal == Some(TakenOver)
      ensures stopped == Some(ValkeyDown) <==>
        s.renewal != Some(TakenOver) && (s.renewal == Some(NoAnswer) || s.item.Unanswered?)
      ensures stopped == Some(Requeue) ==> cluster.Trouble(old(log), log)
    {
      if s.renewal == Some(TakenOver) { return Some(NameLost); }
      if s.renewal == Some(NoAnswer) {
        DiscardBulk();
        return Some(ValkeyDown);
      }
      match s.item
      case Unanswered =>
        DiscardBulk();
        return Some(ValkeyDown);
      case Event(doc) =>
        var shipped := ShipBite(doc, s.late);
        if shipped.Err? {
          DiscardBulk();
          return Some(Requeue);
        }
        return None;
      case _ =>
        return None;
    }

    /** What is to be done with once a batch is acknowledged. */
    function Wanted(steps: seq<Step>): multiset<Doc> {
      if elastic then multiset(Docs(steps)) else multiset{}
    }

    /** Handles one claimed batch: how many items may be acknowledged, if the
        whole of it is done with. */
    method HandleBatch(steps: seq<Step>) returns (outcome: Outcome)
      requires Valid() && buffer == []
      modifies this`requests, this`buffer, this`log
      ensures Valid() && old(log) <= log
      ensures outcome.Acknowledge? ==> outcome.n == |steps| && Done() == old(Done()) + Wanted(steps)
      ensures outcome == Requeue ==> cluster.Trouble(old(log), log)
      ensures outcome.Acknowledge? && elastic ==> AllAnswered(cluster, |old(log)|, log, steps)
      ensures outcome == Requeue ==> RefusedSince(cluster, |old(log)|, log)
      ensures outcome != NameLost ==> buffer == []
      ensures outcome == NameLost ==> exists s <- steps :: s.renewal == Some(TakenOver)
      ensures outcome == ValkeyDown ==> exists s <- steps :: s.renewal == Some(NoAnswer) || s.item.Unanswered?
    {
      ghost var was := log;
      for i := 0 to |steps|
        invariant Valid() && Handed(was, [], Wanted(steps[..i]), true)
      {
        assert steps[i] in steps;
        ghost var sofar, waited := log, buffer;
        var stopped := HandleItem(steps[i]);
        if stopped.Some? {
          if stopped.value == Requeue {
            TroubleLonger(cluster, was, sofar, log);
            TroubleMeans(cluster, was, log);
          }
          return stopped.value;
        }
        HandedNext(was, steps, i, sofar, waited);
      }
      assert steps[..|steps|] == steps;
      outcome := Finish(was, steps);
      if outcome == Requeue { TroubleMeans(cluster, was, log); }
      else if elastic { BatchAnswered(cluster, was, log, steps); }
    }

    /** The flush after the last item. */
    method Finish(ghost was: seq<Request>, steps: seq<Step>) returns (outcome: Outcome)
      requires Valid() && Handed(was, [], Wanted(steps), true)
      modifies this`requests, this`buffer, this`log
      ensures Valid() && was <= log && buffer == []
      ensures if outcome.Acknowledge? then outcome.n == |steps| && Done() == cluster.DoneIn(was) + Wanted(steps)
              else outcome == Requeue && cluster.Trouble(was, log)
    {
      ghost var sofar, waited := log, buffer;
      var flushed := FlushBulk(true, true);
      if waited == [] {
        assert Done() + multiset([]) == Done();
      } else {
        Flushed(sofar, waited, flushed.Ok?);
      }
      if flushed.Err? {
        TroubleLonger(cluster, was, sofar, log);
        return Requeue;
      }
      assert Done() == cluster.DoneIn(sofar) + multiset(waited);
      outcome := Acknowledge(|steps|);
    }

    lemma HandedNext(was: seq<Request>, steps: seq<Step>, i: nat, sofar: seq<Request>, waited: seq<Doc>)
      requires i < |steps| && was <= sofar
      requires cluster.DoneIn(sofar) + multiset(waited) == cluster.DoneIn(was) + Wanted(steps[..i])
      requires var item := steps[i].item;
               Handed(sofar, waited, if elastic && item.Event? then multiset{item.doc} else multiset{}, true)
      ensures Handed(was, [], Wanted(steps[..i + 1]), true)
    {
      DocsNext(steps, i);
    }

    /** Batch after batch: none starts with another's documents still waiting,
        and each acknowledged one is done with. The run ends when the name is lost. */
    method Run(batches: seq<seq<Step>>) returns (outcomes: seq<Outcome>)
      requires Valid() && buffer == []
      modifies this`requests, this`buffer, this`log
      ensures Valid() && old(log) <= log && buffer == [] && |outcomes| <= |batches|
      ensures |outcomes| < |batches| ==> outcomes != [] && outcomes[|outcomes| - 1] == NameLost
      ensures forall i | 0 <= i < |outcomes| :: outcomes[i].Acknowledge? ==> outcomes[i].n == |batches[i]|
      ensures elastic ==> old(Done()) + Acknowledged(batches, outcomes) <= Done()
      ensures elastic ==> BatchesAnswered(cluster, |old(log)|, log, batches, outcomes)
    {
      outcomes := [];
      for i := 0 to |batches|
        invariant Valid() && old(log) <= log && buffer == [] && |outcomes| == i
        invariant SoFar(batches, outcomes, elastic, old(Done()), Done())
        invariant elastic ==> BatchesAnswered(cluster, |old(log)|, log, batches, outcomes)
      {
        ghost var before, was := Done(), log;
        var outcome := HandleMore(batches[i]);
        OneMoreDone(batches, outcomes, elastic, old(Done()), before, outcome, Done());
        if elastic { OneMoreAnswered(cluster, |old(log)|, was, log, batches, outcomes, outcome); }
        outcomes := outcomes + [outcome];
        if outcome == NameLost {
          DiscardBulk();
          return;
        }
      }
      Last();
    }

    /** The flush at the end of a run, when nothing waits. */
    method Last()
      requires Valid() && buffer == []
      modifies this`requests, this`buffer, this`log
      ensures Valid() && buffer == [] && log == old(log)
    {
      var last := FlushBulk(true, true);
    }

    /** A batch whose handling takes nothing back from what is done with. */
    method HandleMore(steps: seq<Step>) returns (outcome: Outcome)
      requires Valid() && buffer == []
      modifies this`requests, this`buffer, this`log
      ensures Valid() && old(log) <= log
      ensures outcome.Acknowledge? ==> outcome.n == |steps|
      ensures outcome != NameLost ==> buffer == []
      ensures if elastic then old(Done()) + DocsOf(steps, outcome) <= Done() else old(Done()) <= Done()
      ensures outcome.Acknowledge? && elastic ==> AllAnswered(cluster, |old(log)|, log, steps)
    {
      ghost var was := log;
      outcome := HandleBatch(steps);
      DoneMore(cluster, was, log);
    }
  }

  lemma DocsNext(steps: seq<Step>, i: nat)
    requires i < |steps|
    ensures Docs(steps[..i + 1]) == Docs(steps[..i]) + if steps[i].item.Event? then [steps[i].item.doc] else []
  {
    assert steps[..i + 1][..i] == steps[..i];
  }

  function DocsOf(steps: seq<Step>, outcome: Outcome): multiset<Doc> {
    if outcome.Acknowledge? then multiset(Docs(steps)) else multiset{}
  }

  /** Every acknowledgement is of a whole batch, whose documents are done with. */
  ghost predicate SoFar(batches: seq<seq<Step>>, outcomes: seq<Outcome>, elastic: bool, was: multiset<Doc>,
                        done: multiset<Doc>)
    requires |outcomes| <= |batches|
  {
    && (forall j | 0 <= j < |outcomes| :: outcomes[j].Acknowledge? ==> outcomes[j].n == |batches[j]|)
    && (elastic ==> was + Acknowledged(batches, outcomes) <= done)
  }

  lemma OneMoreDone(batches: seq<seq<Step>>, outcomes: seq<Outcome>, elastic: bool, was: multiset<Doc>,
                    before: multiset<Doc>, outcome: Outcome, done: multiset<Doc>)
    requires |outcomes| < |batches| && SoFar(batches, outcomes, elastic, was, before)
    requires outcome.Acknowledge? ==> outcome.n == |batches[|outcomes|]|
    requires elastic ==> before + DocsOf(batches[|outcomes|], outcome) <= done
    ensures SoFar(batches, outcomes + [outcome], elastic, was, done)
  {
    AcknowledgedNext(batches, outcomes, outcome);
    if elastic {
      AddsUp(was, Acknowledged(batches, outcomes), before, DocsOf(batches[|outcomes|], outcome), done);
    }
  }

  lemma AddsUp(a: multiset<Doc>, b: multiset<Doc>, c: multiset<Doc>, d: multiset<Doc>, e: multiset<Doc>)
    requires a + b <= c && c + d <= e
    ensures a + (b + d) <= e
  {
  }

  /** The documents of the batches acknowledged so far. */
  function Acknowledged(batches: seq<seq<Step>>, outcomes: seq<Outcome>): multiset<Doc>
    requires |outcomes| <= |batches|
  {
    if outcomes == [] then multiset{}
    else
      var n := |outcomes| - 1;
      Acknowledged(batches, outcomes[..n]) + DocsOf(batches[n], outcomes[n])
  }

  lemma AcknowledgedNext(batches: seq<seq<Step>>, outcomes: seq<Outcome>, outcome: Outcome)
    requires |outcomes| < |batches|
    ensures Acknowledged(batches, outcomes + [outcome])
            == Acknowledged(batches, outcomes) + DocsOf(batches[|outcomes|], outcome)
  {
    assert (outcomes + [outcome])[..|outcomes|] == outcomes;
  }
}
