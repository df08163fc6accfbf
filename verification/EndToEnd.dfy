/** From the queue to OpenSearch: what the shared queue lets go of in any run of
    consumers is what their processors' requests are done with. */
module EndToEnd {
  import opened Wrappers
  import opened Delivery
  import Queue
  import Shipping

  /** What a queued item turns out to be when it is read. */
  type Reading = Queue.Item -> Shipping.Item

  /** The documents of these items. */
  function DocsHeld(items: seq<Queue.Item>, holds: Reading): seq<Shipping.Doc> {
    if items == [] then []
    else
      var n := |items| - 1;
      DocsHeld(items[..n], holds) + if holds(items[n]).Event? then [holds(items[n]).doc] else []
  }

  lemma {:induction false} DocHeld(items: seq<Queue.Item>, holds: Reading, item: Queue.Item)
    requires item in items && holds(item).Event?
    ensures holds(item).doc in DocsHeld(items, holds)
  {
    var n := |items| - 1;
    if item != items[n] {
      assert items == items[..n] + [items[n]];
      DocHeld(items[..n], holds, item);
    }
  }

  lemma {:induction false} DocsOfSteps(items: seq<Queue.Item>, holds: Reading, steps: seq<Shipping.Step>)
    requires |steps| == |items| && forall i | 0 <= i < |items| :: steps[i].item == holds(items[i])
    ensures Shipping.Docs(steps) == DocsHeld(items, holds)
  {
    if items != [] {
      var n := |items| - 1;
      DocsOfSteps(items[..n], holds, steps[..n]);
    }
  }

  /** Handling a claimed batch to completion is done with its items' documents. */
  method HandleClaimed(processor: Shipping.Processor, items: seq<Queue.Item>, ghost holds: Reading,
                       steps: seq<Shipping.Step>)
    returns (outcome: Shipping.Outcome)
    requires processor.Valid() && processor.buffer == [] && processor.elastic
    requires |steps| == |items| && forall i | 0 <= i < |items| :: steps[i].item == holds(items[i])
    modifies processor
    ensures processor.Valid() && old(processor.log) <= processor.log
    ensures outcome.Acknowledge? ==>
      outcome.n == |items| && DoneWith(processor.cluster, processor.log, items, holds)
  {
    outcome := processor.HandleBatch(steps);
    DocsOfSteps(items, holds, steps);
  }

  /** The requests are done with every document of these items. */
  predicate DoneWith(c: Shipping.Cluster, log: seq<Shipping.Request>, items: seq<Queue.Item>, holds: Reading) {
    multiset(DocsHeld(items, holds)) <= c.DoneIn(log)
  }

  /** Requests sent later change nothing of that. */
  lemma DoneWithStill(c: Shipping.Cluster, was: seq<Shipping.Request>, now: seq<Shipping.Request>,
                      items: seq<Queue.Item>, holds: Reading)
    requires was <= now && DoneWith(c, was, items, holds)
    ensures DoneWith(c, now, items, holds)
  {
    Shipping.DoneMore(c, was, now);
  }

  /** The k-th step of the run completes the handling of a batch. */
  predicate Completes(events: seq<Event>, k: nat) {
    k < |events| && events[k].Handle? && events[k].indexed
  }

  lemma {:induction false} CanRunFirst(events: seq<Event>, k: nat)
    requires CanRun(events) && k <= |events|
    ensures CanRun(events[..k])
    ensures k < |events| ==> Enabled(Run(events[..k]), events[k])
  {
    var n := |events| - 1;
    if k == |events| {
      assert events[..k] == events;
    } else if k < n {
      CanRunFirst(events[..n], k);
      assert events[..n][..k] == events[..k];
    }
  }

  /** The batch in hand at the k-th step, and whose it is. */
  function BatchAt(events: seq<Event>, k: nat): (batch: (Process, seq<Queue.Item>))
    requires CanRun(events) && Completes(events, k)
  {
    CanRunFirst(events, k);
    (events[k].p, Run(events[..k]).consumers[events[k].p].phase.items)
  }

  /** Every batch was handled as a processor handles it: by the end its
      process's requests are done with what it completed. */
  ghost predicate CarriedOut(events: seq<Event>, holds: Reading, clusters: Process -> Shipping.Cluster,
                       logs: Process -> seq<Shipping.Request>)
    requires CanRun(events)
  {
    forall k: nat | Completes(events, k) ::
      var (p, items) := BatchAt(events, k);
      DoneWith(clusters(p), logs(p), items, holds)
  }

  lemma HandledNext(w: World, e: Event, item: Queue.Item)
    requires Enabled(w, e) && item in Next(w, e).handled && item !in w.handled
    ensures e.Handle? && e.indexed && item in w.consumers[e.p].phase.items
  {
  }

  lemma BatchAtFirst(events: seq<Event>, n: nat, k: nat)
    requires CanRun(events) && n <= |events| && CanRun(events[..n]) && Completes(events[..n], k)
    ensures Completes(events, k) && BatchAt(events, k) == BatchAt(events[..n], k)
  {
    assert events[..n][..k] == events[..k];
  }

  /** What was handled was in a batch whose handling was completed. */
  lemma {:induction false} HandledAt(events: seq<Event>, item: Queue.Item) returns (k: nat)
    requires CanRun(events) && item in Run(events).handled
    ensures Completes(events, k) && item in BatchAt(events, k).1
  {
    var n := |events| - 1;
    if item in Run(events[..n]).handled {
      k := HandledAt(events[..n], item);
      BatchAtFirst(events, n, k);
    } else {
      k := n;
      HandledNext(Run(events[..n]), events[n], item);
    }
  }

  /** OpenSearch took the item's document from one of the processes, or refused it for good. */
  ghost predicate Shipped(holds: Reading, clusters: Process -> Shipping.Cluster, logs: Process -> seq<Shipping.Request>,
                          item: Queue.Item)
    requires holds(item).Event?
  {
    exists p: Process, n: nat :: Shipping.Answered(clusters(p), logs(p), n, holds(item).doc)
  }

  /** In any run with one live process to a name, whatever crashes, lapses, fails
      or goes unanswered: every item pushed is still in the queue or in a
      processing list, or it was no event, or OpenSearch answered a request with
      its document and took it or refused it in no way that may clear. */
  lemma NothingLost(events: seq<Event>, holds: Reading, clusters: Process -> Shipping.Cluster,
                    logs: Process -> seq<Shipping.Request>)
    requires CanRun(events) && OneAtATime(events) && CarriedOut(events, holds, clusters, logs)
    ensures var w := Run(events);
            forall item: Queue.Item | item < w.pushed ::
              || item in w.store.queue || (exists name <- w.store.lists :: item in w.store.lists[name])
              || (holds(item).Event? ==> Shipped(holds, clusters, logs, item))
  {
    var w := Run(events);
    OneAtATimeSuffices(events);
    AtLeastOnce(events);
    forall item: Queue.Item | item in w.trimmed && holds(item).Event? ensures Shipped(holds, clusters, logs, item) {
      var k := HandledAt(events, item);
      var (p, items) := BatchAt(events, k);
      DocHeld(items, holds, item);
      assert holds(item).doc in multiset(DocsHeld(items, holds));
      var n := Shipping.DoneWasSettled(clusters(p), logs(p), holds(item).doc);
      Shipping.SettledMeans(clusters(p), logs(p), n, holds(item).doc);
    }
  }
}
