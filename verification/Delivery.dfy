/** At-least-once delivery: every consumer of libtb.consumer as a program
    counter over the shared Valkey, any number of them, interleaved in any
    order with producers, crashes, lost replies, lapsed names and sweeps. */
module Delivery {
  import opened Wrappers
  import opened Queue

  /** A process is known by the token it reserves its name with. */
  type Process = string

  /** Where a process is in Consumer.run. `recovering` says the processing
      list is to be handled before anything is claimed; `stranded` that the
      batch in hand is that list. */
  datatype Phase =
    | Reserving
    | Top(recovering: bool)
    | Held(recovering: bool)
    | Claiming(first: Item)
    | Handling(items: seq<Item>, stranded: bool)
    | Settling(items: seq<Item>, acked: bool, stranded: bool)
    | Committing(items: seq<Item>, acked: bool, stranded: bool)
    | Ended

  /** History: `seen` is the turn of the name at which the process last set
      out to recover its processing list, 0 until it has; `took` the turn at
      which it came by the batch in hand. */
  datatype Consumer = Consumer(name: string, phase: Phase, seen: nat, took: nat)

  /** `pushed`, `trimmed`, `handled`, `turns` and `last` are history: how many
      items were pushed, what acknowledgements trimmed, what was in a batch
      handled to completion, how often a name passed to another process, and
      who held it last. */
  datatype World = World(
    store: Store,
    consumers: map<Process, Consumer>,
    pushed: nat,
    trimmed: multiset<Item>,
    handled: set<Item>,
    turns: map<string, nat>,
    last: map<string, Process>)
  {
    function Turn(name: string): nat {
      if name in turns then turns[name] else 0
    }

    function Last(name: string): Option<Process> {
      if name in last then Some(last[name]) else None
    }

    /** The name becomes, or stays, this process's. */
    function Grant(name: string, p: Process): World {
      this.(store := store.Take(name, p),
            turns := if Last(name) == Some(p) then turns else turns[name := Turn(name) + 1],
            last := last[name := p])
    }

    function Move(p: Process, phase: Phase): World
      requires p in consumers
    {
      this.(consumers := consumers[p := consumers[p].(phase := phase)])
    }

    /** The process comes by a new batch now. */
    function Taking(p: Process): World
      requires p in consumers
    {
      this.(consumers := consumers[p := consumers[p].(took := Turn(consumers[p].name))])
    }

    /** No other process has held this one's name since it last set out to recover its list. */
    predicate Current(p: Process)
      requires p in consumers
    {
      consumers[p].seen == Turn(consumers[p].name) && consumers[p].seen > 0
    }
  }

  const START := World(Store([], map[], map[]), map[], 0, multiset{}, {}, map[], map[])

  /** One atomic step. `replied` is false when Valkey ran the command but the
      reply was lost; Fail is a command that never ran. */
  datatype Event =
    | Push
    | Begin(p: Process, name: string)
    | Reserve(p: Process, replied: bool)
    | Renew(p: Process, replied: bool)
    | Recover(p: Process)
    | ClaimFirst(p: Process, replied: bool)
    | ClaimRest(p: Process, count: nat, replied: bool)
    | Handle(p: Process, indexed: bool)
    | Commit(p: Process, replied: bool)
    | Fail(p: Process)
    | Stop(p: Process)
    | Release(p: Process)
    | Lapse(name: string)
    | Sweep(name: string)

  predicate Renews(phase: Phase) {
    phase.Top? || phase.Handling? || phase.Settling?
  }

  predicate Enabled(w: World, e: Event) {
    match e
    case Push => true
    case Begin(p, _) => p !in w.consumers
    case Lapse(_) => true
    case Sweep(_) => true
    case Reserve(p, _) => p in w.consumers && w.consumers[p].phase.Reserving?
    case Renew(p, _) => p in w.consumers && Renews(w.consumers[p].phase)
    case Recover(p) => p in w.consumers && w.consumers[p].phase == Held(true)
    case ClaimFirst(p, _) => p in w.consumers && w.consumers[p].phase == Held(false)
    case ClaimRest(p, _, _) => p in w.consumers && w.consumers[p].phase.Claiming?
    case Handle(p, _) => p in w.consumers && w.consumers[p].phase.Handling?
    case Commit(p, _) => p in w.consumers && w.consumers[p].phase.Committing?
    case Fail(p) => p in w.consumers && !w.consumers[p].phase.Reserving? && !w.consumers[p].phase.Ended?
    case Stop(p) => p in w.consumers
    case Release(p) => p in w.consumers && w.consumers[p].phase.Ended?
  }

  /** A successful or refused RENEW_SCRIPT, wherever the process called it. */
  function Renewed(w: World, p: Process, replied: bool): World
    requires p in w.consumers && Renews(w.consumers[p].phase)
  {
    var c := w.consumers[p];
    var held := w.store.Renewable(c.name, p);
    var w' := if held then w.Grant(c.name, p) else w;
    if !replied then w'.Move(p, Top(true))
    else if !held then w'.Move(p, Ended)
    else match c.phase
         case Top(recovering) =>
           w'.(consumers := w.consumers[p := c.(phase := Held(recovering),
                                              seen := if recovering then w'.Turn(c.name) else c.seen)])
         case Settling(items, acked, stranded) => w'.Move(p, Committing(items, acked, stranded))
         case _ => w'
  }

  /** ACK_SCRIPT or REQUEUE_SCRIPT, which check the owner key in the same step. */
  function Committed(w: World, p: Process, replied: bool): World
    requires p in w.consumers && w.consumers[p].phase.Committing?
  {
    var c := w.consumers[p];
    var n := |c.phase.items|;
    var owns := w.store.Holder(c.name) == Some(p);
    var w' := if !owns then w
              else if c.phase.acked then
                w.(store := w.store.Trim(c.name, n),
                   trimmed := w.trimmed + multiset(w.store.List(c.name)[..Min(n, |w.store.List(c.name)|)]))
              else w.(store := w.store.Requeue(c.name, n));
    w'.Move(p, if !replied then Top(true)
               else if !owns then Ended
               else if c.phase.stranded then Held(false) else Top(false))
  }

  /** SET NX: taken only when free. */
  function Reserved(w: World, p: Process, replied: bool): World
    requires p in w.consumers
  {
    var name := w.consumers[p].name;
    if w.store.Holder(name) == None then w.Grant(name, p).Move(p, if replied then Top(true) else Ended)
    else w
  }

  function ReadBack(w: World, p: Process): World
    requires p in w.consumers
  {
    var l := w.store.List(w.consumers[p].name);
    w.Taking(p).Move(p, if l == [] then Held(false) else Handling(l, true))
  }

  function ClaimedFirst(w: World, p: Process, replied: bool): World
    requires p in w.consumers
  {
    if w.store.queue == [] then w.Move(p, if replied then Top(false) else Top(true))
    else w.Taking(p).(store := w.store.Claim(w.consumers[p].name, 1))
          .Move(p, if replied then Claiming(w.store.queue[0]) else Top(true))
  }

  function ClaimedRest(w: World, p: Process, count: nat, replied: bool): World
    requires p in w.consumers && w.consumers[p].phase.Claiming?
  {
    var c := w.consumers[p];
    w.(store := w.store.Claim(c.name, count))
     .Move(p, if replied then Handling([c.phase.first] + w.store.Head(count), false) else Top(true))
  }

  function Processed(w: World, p: Process, indexed: bool): World
    requires p in w.consumers && w.consumers[p].phase.Handling?
  {
    var Handling(items, stranded) := w.consumers[p].phase;
    w.(handled := if indexed then w.handled + (set x | x in items) else w.handled)
     .Move(p, Settling(items, indexed, stranded))
  }

  function Let(w: World, p: Process): World
    requires p in w.consumers
  {
    var name := w.consumers[p].name;
    if w.store.Holder(name) == Some(p) then w.(store := w.store.Free(name)) else w
  }

  function Next(w: World, e: Event): World
    requires Enabled(w, e)
  {
    match e
    case Push => w.(store := w.store.(queue := w.store.queue + [w.pushed]), pushed := w.pushed + 1)
    case Begin(p, name) => w.(consumers := w.consumers[p := Consumer(name, Reserving, 0, 0)])
    case Reserve(p, replied) => Reserved(w, p, replied)
    case Renew(p, replied) => Renewed(w, p, replied)
    case Recover(p) => ReadBack(w, p)
    case ClaimFirst(p, replied) => ClaimedFirst(w, p, replied)
    case ClaimRest(p, count, replied) => ClaimedRest(w, p, count, replied)
    case Handle(p, indexed) => Processed(w, p, indexed)
    case Commit(p, replied) => Committed(w, p, replied)
    case Fail(p) => w.Move(p, Top(true))
    case Stop(p) => w.Move(p, Ended)
    case Release(p) => Let(w, p)
    case Lapse(name) => w.(store := w.store.Free(name))
    case Sweep(name) => w.(store := w.store.Requeue(name, 1))
  }

  /** What is asked of the environment: a process that claims items, or whose
      acknowledgement or requeue Valkey carries out, is Current. */
  predicate Undisturbed(w: World, e: Event)
    requires Enabled(w, e)
  {
    match e
    case ClaimFirst(p, _) => w.store.queue != [] ==> w.Current(p)
    case ClaimRest(p, _, _) => w.Current(p)
    case Commit(p, _) => w.store.Holder(w.consumers[p].name) == Some(p) ==> w.Current(p)
    case _ => true
  }

  predicate CanRun(events: seq<Event>)
    decreases |events|, 0
  {
    events == [] || (var k := |events| - 1; CanRun(events[..k]) && Enabled(Run(events[..k]), events[k]))
  }

  /** The world after these steps from an empty one. */
  function Run(events: seq<Event>): World
    requires CanRun(events)
    decreases |events|, 1
  {
    if events == [] then START
    else var k := |events| - 1; Next(Run(events[..k]), events[k])
  }

  predicate UndisturbedRun(events: seq<Event>)
    requires CanRun(events)
  {
    events == [] || (var k := |events| - 1; UndisturbedRun(events[..k]) && Undisturbed(Run(events[..k]), events[k]))
  }

  // -- the invariant -------------------------------------------------------

  ghost function Pushed(n: nat): multiset<Item> {
    multiset(seq(n, i => i))
  }

  /** Nothing is lost or doubled, and only handled items are trimmed. */
  ghost predicate Conserved(w: World) {
    && w.store.All() + w.trimmed == Pushed(w.pushed)
    && NoEmptyLists(w.store)
    && forall x <- w.trimmed :: x in w.handled
  }

  /** Every item of the list belongs to the batch. */
  ghost predicate Within(l: seq<Item>, items: seq<Item>) {
    |l| <= |items| && forall x <- l :: x in items
  }

  /** What a Current process's place in its loop says about its processing list. */
  ghost predicate InHand(phase: Phase, l: seq<Item>) {
    match phase
    case Top(recovering) => recovering || l == []
    case Held(recovering) => recovering || l == []
    case Claiming(first) => Within(l, [first])
    case Handling(items, _) => Within(l, items)
    case Settling(items, _, _) => Within(l, items)
    case Committing(items, _, _) => Within(l, items)
    case _ => true
  }

  ghost predicate Vouched(phase: Phase, handled: set<Item>) {
    (phase.Settling? || phase.Committing?) && phase.acked ==> forall x <- phase.items :: x in handled
  }

  ghost predicate ConsumerOk(w: World, p: Process)
    requires p in w.consumers
  {
    var c := w.consumers[p];
    && c.seen <= w.Turn(c.name)
    && (w.Current(p) ==> w.Last(c.name) == Some(p))
    && (w.Current(p) ==> InHand(c.phase, w.store.List(c.name)))
    && Vouched(c.phase, w.handled)
  }

  ghost predicate OwnersLast(w: World) {
    forall name <- w.store.owners :: w.Last(name) == Some(w.store.owners[name])
  }

  ghost predicate Inv(w: World) {
    Conserved(w) && OwnersLast(w) && forall p <- w.consumers :: ConsumerOk(w, p)
  }

  lemma ReserveOk(w: World, p: Process, replied: bool)
    requires Inv(w) && p in w.consumers && w.consumers[p].phase.Reserving?
    ensures Inv(Reserved(w, p, replied))
  {
    var w' := Reserved(w, p, replied);
    assert w'.store.All() == w.store.All();
    forall q <- w'.consumers ensures ConsumerOk(w', q) { assert ConsumerOk(w, q); }
  }

  lemma GrantOk(w: World, name: string, p: Process)
    requires Inv(w) && w.store.Renewable(name, p)
    ensures Inv(w.Grant(name, p))
  {
    var w' := w.Grant(name, p);
    assert w'.store.All() == w.store.All();
    forall q <- w'.consumers ensures ConsumerOk(w', q) { assert ConsumerOk(w, q); }
  }

  /** A process that sets out to recover becomes Current, whatever its list holds. */
  lemma SetOutOk(w: World, p: Process)
    requires Inv(w) && p in w.consumers
    requires w.Last(w.consumers[p].name) == Some(p)
    ensures var c := w.consumers[p];
            Inv(w.(consumers := w.consumers[p := c.(phase := Held(true), seen := w.Turn(c.name))]))
  {
    var c := w.consumers[p];
    var w' := w.(consumers := w.consumers[p := c.(phase := Held(true), seen := w.Turn(c.name))]);
    forall q <- w'.consumers ensures ConsumerOk(w', q) { assert ConsumerOk(w, q); }
  }

  lemma RenewOk(w: World, p: Process, replied: bool)
    requires Inv(w) && p in w.consumers && Renews(w.consumers[p].phase)
    ensures Inv(Renewed(w, p, replied))
  {
    var c := w.consumers[p];
    var held := w.store.Renewable(c.name, p);
    var w' := if held then w.Grant(c.name, p) else w;
    if held { GrantOk(w, c.name, p); }
    assert ConsumerOk(w', p);
    if !replied {
      MoveOk(w', p, Top(true));
    } else if !held {
      MoveOk(w', p, Ended);
    } else {
      match c.phase
      case Top(recovering) =>
        if recovering { SetOutOk(w', p); } else { MoveOk(w', p, Held(false)); }
      case Settling(items, acked, stranded) => MoveOk(w', p, Committing(items, acked, stranded));
      case _ =>
    }
  }

  lemma ClaimOk(w: World, p: Process, count: nat, phase: Phase)
    requires Inv(w) && p in w.consumers && w.Current(p)
    requires phase == Top(true)
             || (InHand(phase, w.store.Claim(w.consumers[p].name, count).List(w.consumers[p].name))
                 && Vouched(phase, w.handled))
    ensures Inv(w.(store := w.store.Claim(w.consumers[p].name, count)).Move(p, phase))
  {
    var name := w.consumers[p].name;
    var w' := w.(store := w.store.Claim(name, count)).Move(p, phase);
    ClaimConserves(w.store, name, count);
    forall q <- w'.consumers ensures ConsumerOk(w', q) {
      assert ConsumerOk(w, q) && ConsumerOk(w, p);
    }
  }

  predicate BetweenBatches(phase: Phase) {
    phase.Top? || phase == Held(false) || phase.Ended?
  }

  /** An acknowledgement of a Current process's handled batch trims its whole list, and nothing else. */
  lemma AckOk(w: World, p: Process, n: nat, phase: Phase)
    requires Inv(w) && p in w.consumers && w.Current(p) && BetweenBatches(phase)
    requires var l := w.store.List(w.consumers[p].name); |l| <= n && forall x <- l :: x in w.handled
    ensures var l := w.store.List(w.consumers[p].name);
            Inv(w.(store := w.store.Trim(w.consumers[p].name, n), trimmed := w.trimmed + multiset(l[..Min(n, |l|)]))
                 .Move(p, phase))
  {
    var name := w.consumers[p].name;
    var l := w.store.List(name);
    var w' := w.(store := w.store.Trim(name, n), trimmed := w.trimmed + multiset(l[..Min(n, |l|)])).Move(p, phase);
    assert l[..|l|] == l && l[|l|..] == [];
    TrimTakes(w.store, name, n);
    forall q <- w'.consumers ensures ConsumerOk(w', q) {
      assert ConsumerOk(w, q) && ConsumerOk(w, p);
    }
  }

  /** A requeue empties it into the queue. */
  lemma RequeueOk(w: World, p: Process, n: nat, phase: Phase)
    requires Inv(w) && p in w.consumers && w.Current(p) && BetweenBatches(phase)
    requires |w.store.List(w.consumers[p].name)| <= n
    ensures Inv(w.(store := w.store.Requeue(w.consumers[p].name, n)).Move(p, phase))
  {
    var name := w.consumers[p].name;
    var w' := w.(store := w.store.Requeue(name, n)).Move(p, phase);
    assert w.store.List(name)[..0] == [];
    RequeueConserves(w.store, name, n);
    forall q <- w'.consumers ensures ConsumerOk(w', q) {
      assert ConsumerOk(w, q) && ConsumerOk(w, p);
    }
  }

  lemma CommitOk(w: World, p: Process, replied: bool)
    requires Inv(w) && p in w.consumers && w.consumers[p].phase.Committing?
    requires w.store.Holder(w.consumers[p].name) == Some(p) ==> w.Current(p)
    ensures Inv(Committed(w, p, replied))
  {
    var c := w.consumers[p];
    assert ConsumerOk(w, p);
    var phase := Committed(w, p, replied).consumers[p].phase;
    if w.store.Holder(c.name) != Some(p) { MoveOk(w, p, phase); }
    else if c.phase.acked { AckOk(w, p, |c.phase.items|, phase); }
    else { RequeueOk(w, p, |c.phase.items|, phase); }
  }

  lemma ShorterList(s: Store, name: string, other: string)
    ensures s.Requeue(name, 1).List(other) == if other == name then s.List(name)[..s.Left(name, 1)] else s.List(other)
  {
  }

  lemma SweepOk(w: World, name: string)
    requires Inv(w)
    ensures Inv(w.(store := w.store.Requeue(name, 1)))
  {
    var w' := w.(store := w.store.Requeue(name, 1));
    RequeueConserves(w.store, name, 1);
    forall q <- w'.consumers ensures ConsumerOk(w', q) {
      assert ConsumerOk(w, q);
      ShorterList(w.store, name, w.consumers[q].name);
    }
  }

  lemma MoveOk(w: World, p: Process, phase: Phase)
    requires Inv(w) && p in w.consumers
    requires w.Current(p) ==> InHand(phase, w.store.List(w.consumers[p].name))
    requires Vouched(phase, w.handled)
    ensures Inv(w.Move(p, phase))
  {
    var w' := w.Move(p, phase);
    forall q <- w'.consumers ensures ConsumerOk(w', q) { assert ConsumerOk(w, q); }
  }

  lemma TakingOk(w: World, p: Process)
    requires Inv(w) && p in w.consumers
    ensures Inv(w.Taking(p))
  {
    forall q <- w.consumers ensures ConsumerOk(w.Taking(p), q) { assert ConsumerOk(w, q); }
  }

  lemma ReadBackOk(w: World, p: Process)
    requires Inv(w) && p in w.consumers
    ensures Inv(ReadBack(w, p))
  {
    var l := w.store.List(w.consumers[p].name);
    TakingOk(w, p);
    MoveOk(w.Taking(p), p, if l == [] then Held(false) else Handling(l, true));
  }

  lemma ClaimFirstOk(w: World, p: Process, replied: bool)
    requires Inv(w) && p in w.consumers && w.consumers[p].phase == Held(false)
    requires w.store.queue != [] ==> w.Current(p)
    ensures Inv(ClaimedFirst(w, p, replied))
  {
    assert ConsumerOk(w, p);
    if w.store.queue == [] {
      MoveOk(w, p, if replied then Top(false) else Top(true));
    } else {
      assert w.store.Head(1) == [w.store.queue[0]];
      TakingOk(w, p);
      assert ConsumerOk(w.Taking(p), p);
      ClaimOk(w.Taking(p), p, 1, if replied then Claiming(w.store.queue[0]) else Top(true));
    }
  }

  lemma ClaimRestOk(w: World, p: Process, count: nat, replied: bool)
    requires Inv(w) && p in w.consumers && w.consumers[p].phase.Claiming? && w.Current(p)
    ensures Inv(ClaimedRest(w, p, count, replied))
  {
    assert ConsumerOk(w, p);
    ClaimOk(w, p, count, if replied then Handling([w.consumers[p].phase.first] + w.store.Head(count), false)
                         else Top(true));
  }

  lemma PushOk(w: World)
    requires Inv(w)
    ensures Inv(w.(store := w.store.(queue := w.store.queue + [w.pushed]), pushed := w.pushed + 1))
  {
    var w' := w.(store := w.store.(queue := w.store.queue + [w.pushed]), pushed := w.pushed + 1);
    assert seq(w.pushed + 1, i => i) == seq(w.pushed, i => i) + [w.pushed];
    assert w'.store.All() + w'.trimmed == w.store.All() + w.trimmed + multiset{w.pushed};
    forall q <- w'.consumers ensures ConsumerOk(w', q) { assert ConsumerOk(w, q); }
  }

  lemma HandleOk(w: World, p: Process, indexed: bool)
    requires Inv(w) && p in w.consumers && w.consumers[p].phase.Handling?
    ensures Inv(Processed(w, p, indexed))
  {
    var items := w.consumers[p].phase.items;
    var w1 := w.(handled := if indexed then w.handled + (set x | x in items) else w.handled);
    assert ConsumerOk(w, p);
    forall q <- w1.consumers ensures ConsumerOk(w1, q) { assert ConsumerOk(w, q); }
    MoveOk(w1, p, Settling(items, indexed, w.consumers[p].phase.stranded));
  }

  lemma KeysOk(w: World, w': World)
    requires Inv(w) && w'.store.owners.Keys <= w.store.owners.Keys
    requires forall n <- w'.store.owners :: w'.store.owners[n] == w.store.owners[n]
    requires w' == w.(store := w.store.(owners := w'.store.owners))
    ensures Inv(w')
  {
    forall q <- w'.consumers ensures ConsumerOk(w', q) { assert ConsumerOk(w, q); }
  }

  lemma BeginOk(w: World, p: Process, name: string)
    requires Inv(w) && p !in w.consumers
    ensures Inv(w.(consumers := w.consumers[p := Consumer(name, Reserving, 0, 0)]))
  {
    var w' := w.(consumers := w.consumers[p := Consumer(name, Reserving, 0, 0)]);
    forall q <- w'.consumers ensures ConsumerOk(w', q) { if q != p { assert ConsumerOk(w, q); } }
  }

  /** The invariant holds after every undisturbed step. */
  lemma StepKeeps(w: World, e: Event)
    requires Inv(w) && Enabled(w, e) && Undisturbed(w, e)
    ensures Inv(Next(w, e))
  {
    match e
    case Push => PushOk(w);
    case Begin(p, name) => BeginOk(w, p, name);
    case Reserve(p, replied) => ReserveOk(w, p, replied);
    case Renew(p, replied) => RenewOk(w, p, replied);
    case Recover(p) => ReadBackOk(w, p);
    case ClaimFirst(p, replied) => ClaimFirstOk(w, p, replied);
    case ClaimRest(p, count, replied) => ClaimRestOk(w, p, count, replied);
    case Handle(p, indexed) => HandleOk(w, p, indexed);
    case Commit(p, replied) => CommitOk(w, p, replied);
    case Fail(p) => MoveOk(w, p, Top(true));
    case Stop(p) => MoveOk(w, p, Ended);
    case Release(p) => KeysOk(w, Next(w, e));
    case Lapse(name) => KeysOk(w, Next(w, e));
    case Sweep(name) => SweepOk(w, name);
  }

  lemma {:induction false} RunKeeps(events: seq<Event>)
    requires CanRun(events) && UndisturbedRun(events)
    ensures Inv(Run(events))
  {
    if events != [] {
      var k := |events| - 1;
      RunKeeps(events[..k]);
      StepKeeps(Run(events[..k]), events[k]);
    }
  }

  // -- the theorem ---------------------------------------------------------

  /** Anything Valkey holds is in the queue or in a processing list. */
  lemma {:induction false} InSomeList(lists: map<string, seq<Item>>, item: Item)
    requires item in Sum(lists)
    ensures exists name <- lists :: item in lists[name]
    decreases |lists|
  {
    var name :| name in lists && Sum(lists) == multiset(lists[name]) + Sum(lists - {name});
    if item !in lists[name] {
      InSomeList(lists - {name}, item);
    }
  }

  lemma {:induction false} PushedOnce(n: nat, item: Item)
    ensures Pushed(n)[item] == if item < n then 1 else 0
  {
    if n > 0 {
      PushedOnce(n - 1, item);
      assert seq(n, i => i) == seq(n - 1, i => i) + [n - 1];
    }
  }

  /** Every pushed item is in exactly one place: the queue or a processing
      list, or trimmed after a batch it was in was handled to completion. */
  ghost predicate Delivered(w: World) {
    && w.store.All() + w.trimmed == Pushed(w.pushed)
    && (forall item: Item | item < w.pushed && item !in w.trimmed ::
          item in w.store.queue || exists name <- w.store.lists :: item in w.store.lists[name])
    && (forall item <- w.trimmed :: item in w.handled && w.store.All()[item] == 0)
  }

  /** In an undisturbed run, whatever crashed, lapsed or went unanswered, nothing is lost. */
  lemma AtLeastOnce(events: seq<Event>)
    requires CanRun(events) && UndisturbedRun(events)
    ensures Delivered(Run(events))
  {
    RunKeeps(events);
    var w := Run(events);
    forall item: Item | item < w.pushed && item !in w.trimmed
      ensures item in w.store.queue || exists name <- w.store.lists :: item in w.store.lists[name]
    {
      PushedOnce(w.pushed, item);
      assert (w.store.All() + w.trimmed)[item] == 1;
      if item !in w.store.queue { InSomeList(w.store.lists, item); }
    }
    forall item <- w.trimmed ensures w.store.All()[item] == 0 {
      PushedOnce(w.pushed, item);
      assert (w.store.All() + w.trimmed)[item] <= 1;
    }
  }

  // -- one live process to a name is enough --------------------------------

  /** The process whose step this is, once it has begun. */
  function Actor(e: Event): Option<Process> {
    match e
    case Push => None
    case Begin(_, _) => None
    case Lapse(_) => None
    case Sweep(_) => None
    case _ => Some(e.p)
  }

  predicate Succeeds(e: Event, e': Event) {
    e.Begin? && e'.Begin? && e.name == e'.name && e.p != e'.p
  }

  /** A process takes no further step once another has begun under its name. */
  predicate OneAtATime(events: seq<Event>) {
    forall i, j, k | 0 <= i < j < k < |events| && Succeeds(events[i], events[j]) ::
      Actor(events[k]) != Some(events[i].p)
  }

  /** The process last begun under each name. */
  function Live(events: seq<Event>): map<string, Process> {
    if events == [] then map[]
    else
      var e, live := events[|events| - 1], Live(events[..|events| - 1]);
      if e.Begin? then live[e.name := e.p] else live
  }

  predicate Recovered(phase: Phase) {
    !phase.Reserving? && !phase.Ended? && phase != Top(true)
  }

  predicate IsLive(w: World, live: map<string, Process>, p: Process) {
    p in w.consumers && w.consumers[p].name in live && live[w.consumers[p].name] == p
  }

  /** A name passes on only to its live process, which is Current once it has recovered. */
  ghost predicate Solo(w: World, live: map<string, Process>) {
    && (forall name <- live :: live[name] in w.consumers && w.consumers[live[name]].name == name)
    && (forall name <- live :: SoloConsumer(w, live[name]))
    && (forall name <- w.last :: w.Turn(name) > 0)
    && OwnersLast(w)
  }

  ghost predicate SoloConsumer(w: World, p: Process) {
    p in w.consumers && Recovered(w.consumers[p].phase) ==>
      w.Current(p) && w.Last(w.consumers[p].name) == Some(p)
  }

  ghost predicate NamesKept(w: World, w': World) {
    w'.consumers.Keys == w.consumers.Keys && forall p <- w.consumers :: w'.consumers[p].name == w.consumers[p].name
  }

  lemma SoloGrant(w: World, live: map<string, Process>, p: Process)
    requires Solo(w, live) && IsLive(w, live, p)
    ensures Solo(w.Grant(w.consumers[p].name, p), live)
  {
    var w' := w.Grant(w.consumers[p].name, p);
    forall name <- live ensures SoloConsumer(w', live[name]) { assert SoloConsumer(w, live[name]); }
  }

  /** A step of `p` that changes neither names nor turns, and does not make it recovered if it was not. */
  ghost predicate OnlyMoves(w: World, p: Process, w': World) {
    && NamesKept(w, w') && w'.last == w.last && w'.turns == w.turns
    && w'.store.owners.Keys <= w.store.owners.Keys
    && (forall n <- w'.store.owners :: w'.store.owners[n] == w.store.owners[n])
    && p in w.consumers && w'.consumers[p].seen == w.consumers[p].seen
    && (Recovered(w'.consumers[p].phase) ==> Recovered(w.consumers[p].phase))
    && forall q <- w.consumers :: q != p ==> w'.consumers[q] == w.consumers[q]
  }

  lemma SoloSame(w: World, live: map<string, Process>, p: Process, w': World)
    requires Solo(w, live) && OnlyMoves(w, p, w')
    ensures Solo(w', live)
  {
    forall name <- live ensures SoloConsumer(w', live[name]) { assert SoloConsumer(w, live[name]); }
  }

  lemma SoloSetOut(w: World, live: map<string, Process>, p: Process)
    requires Solo(w, live) && p in w.consumers && w.Last(w.consumers[p].name) == Some(p)
    ensures var c := w.consumers[p];
            Solo(w.(consumers := w.consumers[p := c.(phase := Held(true), seen := w.Turn(c.name))]), live)
  {
    var c := w.consumers[p];
    var w' := w.(consumers := w.consumers[p := c.(phase := Held(true), seen := w.Turn(c.name))]);
    forall name <- live ensures SoloConsumer(w', live[name]) { assert SoloConsumer(w, live[name]); }
  }

  lemma SoloMove(w: World, live: map<string, Process>, p: Process, phase: Phase)
    requires Solo(w, live) && p in w.consumers && (Recovered(phase) ==> Recovered(w.consumers[p].phase))
    ensures Solo(w.Move(p, phase), live) && NamesKept(w, w.Move(p, phase))
  {
    SoloSame(w, live, p, w.Move(p, phase));
  }

  /** Where a renewal leaves a process, unless it sets out to recover its list. */
  function RenewedPhase(phase: Phase, replied: bool, held: bool): Phase {
    if !replied then Top(true) else if !held then Ended
    else match phase
         case Top(_) => Held(false)
         case Settling(items, acked, stranded) => Committing(items, acked, stranded)
         case _ => phase
  }

  lemma RenewalMoves(w: World, p: Process, replied: bool, w1: World)
    requires p in w.consumers && Renews(w.consumers[p].phase)
    requires w1 == if w.store.Renewable(w.consumers[p].name, p) then w.Grant(w.consumers[p].name, p) else w
    ensures var c := w.consumers[p];
            var held := w.store.Renewable(c.name, p);
            Renewed(w, p, replied)
            == if replied && held && c.phase == Top(true)
               then w1.(consumers := w1.consumers[p := c.(phase := Held(true), seen := w1.Turn(c.name))])
               else w1.Move(p, RenewedPhase(c.phase, replied, held))
  {
  }

  lemma SoloRenew(w: World, live: map<string, Process>, p: Process, replied: bool)
    requires Solo(w, live) && IsLive(w, live, p) && Renews(w.consumers[p].phase)
    ensures Solo(Renewed(w, p, replied), live)
  {
    var c := w.consumers[p];
    var held := w.store.Renewable(c.name, p);
    var w1 := if held then w.Grant(c.name, p) else w;
    if held { SoloGrant(w, live, p); }
    RenewalMoves(w, p, replied, w1);
    if replied && held && c.phase == Top(true) { SoloSetOut(w1, live, p); }
    else { SoloMove(w1, live, p, RenewedPhase(c.phase, replied, held)); }
  }

  lemma SoloBegin(w: World, live: map<string, Process>, p: Process, name: string)
    requires Solo(w, live) && p !in w.consumers
    ensures Solo(w.(consumers := w.consumers[p := Consumer(name, Reserving, 0, 0)]), live[name := p])
  {
    var w', live' := w.(consumers := w.consumers[p := Consumer(name, Reserving, 0, 0)]), live[name := p];
    forall n <- live' ensures SoloConsumer(w', live'[n]) { if n != name { assert SoloConsumer(w, live[n]); } }
  }

  lemma SoloReserve(w: World, live: map<string, Process>, p: Process, replied: bool)
    requires Solo(w, live) && IsLive(w, live, p)
    ensures Solo(Reserved(w, p, replied), live)
  {
    var name := w.consumers[p].name;
    if w.store.Holder(name) == None {
      SoloGrant(w, live, p);
      SoloMove(w.Grant(name, p), live, p, if replied then Top(true) else Ended);
    }
  }

  lemma ReadBackMoves(w: World, p: Process)
    requires p in w.consumers && Recovered(w.consumers[p].phase)
    ensures OnlyMoves(w, p, ReadBack(w, p))
  {
  }

  lemma ClaimedFirstMoves(w: World, p: Process, replied: bool)
    requires p in w.consumers && Recovered(w.consumers[p].phase)
    ensures OnlyMoves(w, p, ClaimedFirst(w, p, replied))
  {
  }

  lemma ClaimedRestMoves(w: World, p: Process, count: nat, replied: bool)
    requires p in w.consumers && w.consumers[p].phase.Claiming?
    ensures OnlyMoves(w, p, ClaimedRest(w, p, count, replied))
  {
  }

  lemma ProcessedMoves(w: World, p: Process, indexed: bool)
    requires p in w.consumers && w.consumers[p].phase.Handling?
    ensures OnlyMoves(w, p, Processed(w, p, indexed))
  {
  }

  lemma CommittedMoves(w: World, p: Process, replied: bool)
    requires p in w.consumers && w.consumers[p].phase.Committing?
    ensures OnlyMoves(w, p, Committed(w, p, replied))
  {
  }

  lemma SoloStore(w: World, live: map<string, Process>, store: Store, pushed: nat)
    requires Solo(w, live) && store.owners.Keys <= w.store.owners.Keys
             && forall n <- store.owners :: store.owners[n] == w.store.owners[n]
    ensures Solo(w.(store := store, pushed := pushed), live)
  {
    var w' := w.(store := store, pushed := pushed);
    forall name <- live ensures SoloConsumer(w', live[name]) { assert SoloConsumer(w, live[name]); }
  }

  /** A step in the middle of the loop changes neither names nor turns. */
  lemma MidwayMoves(w: World, e: Event)
    requires Enabled(w, e) && (e.Recover? || e.ClaimFirst? || e.ClaimRest? || e.Handle? || e.Commit?)
    ensures OnlyMoves(w, e.p, Next(w, e))
  {
    match e
    case Recover(p) => ReadBackMoves(w, p);
    case ClaimFirst(p, replied) => ClaimedFirstMoves(w, p, replied);
    case ClaimRest(p, count, replied) => ClaimedRestMoves(w, p, count, replied);
    case Handle(p, indexed) => ProcessedMoves(w, p, indexed);
    case Commit(p, replied) => CommittedMoves(w, p, replied);
  }

  /** A step of nobody but a live process keeps it. */
  lemma SoloStep(w: World, live: map<string, Process>, e: Event)
    requires Solo(w, live) && Enabled(w, e)
    requires Actor(e).Some? ==> IsLive(w, live, Actor(e).value)
    ensures Solo(Next(w, e), if e.Begin? then live[e.name := e.p] else live)
  {
    match e
    case Begin(p, name) => SoloBegin(w, live, p, name);
    case Reserve(p, replied) => SoloReserve(w, live, p, replied);
    case Renew(p, replied) => SoloRenew(w, live, p, replied);
    case Fail(p) => SoloMove(w, live, p, Top(true));
    case Stop(p) => SoloMove(w, live, p, Ended);
    case Push => SoloStore(w, live, w.store.(queue := w.store.queue + [w.pushed]), w.pushed + 1);
    case Release(p) => SoloStore(w, live, Let(w, p).store, w.pushed);
    case Lapse(name) => SoloStore(w, live, w.store.Free(name), w.pushed);
    case Sweep(name) => SoloStore(w, live, w.store.Requeue(name, 1), w.pushed);
    case _ =>
      MidwayMoves(w, e);
      SoloSame(w, live, e.p, Next(w, e));
  }

  lemma SoloIsCurrent(w: World, live: map<string, Process>, e: Event)
    requires Solo(w, live) && Enabled(w, e)
    requires Actor(e).Some? ==> IsLive(w, live, Actor(e).value)
    ensures Undisturbed(w, e)
  {
    if e.ClaimFirst? || e.ClaimRest? || e.Commit? { assert SoloConsumer(w, live[w.consumers[e.p].name]); }
  }

  lemma NamesStay(w: World, e: Event)
    requires Enabled(w, e) && !e.Begin?
    ensures NamesKept(w, Next(w, e))
  {
    if e.Recover? || e.ClaimFirst? || e.ClaimRest? || e.Handle? || e.Commit? { MidwayMoves(w, e); }
  }

  /** A process that has begun is its name's live one, or another has begun under the name since. */
  lemma {:induction false} LiveOrReplaced(events: seq<Event>, p: Process) returns (i: nat, j: nat)
    requires CanRun(events) && p in Run(events).consumers
    ensures i < |events| && events[i] == Begin(p, Run(events).consumers[p].name)
    ensures IsLive(Run(events), Live(events), p) || (i < j < |events| && Succeeds(events[i], events[j]))
  {
    var k := |events| - 1;
    var w, e := Run(events[..k]), events[k];
    if p !in w.consumers {
      if !e.Begin? { NamesStay(w, e); }
      i, j := k, k;
    } else {
      i, j := LiveOrReplaced(events[..k], p);
      assert events[i] == events[..k][i];
      if !e.Begin? { NamesStay(w, e); }
      else if IsLive(w, Live(events[..k]), p) && e.name == w.consumers[p].name { j := k; }
    }
  }

  /** However often processes are restarted, under names of their own or old
      ones, and whatever lapses, crashes or goes unanswered: delivery is at
      least once as long as the one before has stopped. */
  lemma {:induction false} OneAtATimeSuffices(events: seq<Event>)
    requires CanRun(events) && OneAtATime(events)
    ensures UndisturbedRun(events) && Solo(Run(events), Live(events))
  {
    if events == [] { return; }
    var k := |events| - 1;
    OneAtATimeSuffices(events[..k]);
    var w, e := Run(events[..k]), events[k];
    if Actor(e).Some? {
      var i, j := LiveOrReplaced(events[..k], Actor(e).value);
      assert events[i] == events[..k][i];
      if j < k { assert events[j] == events[..k][j]; }
    }
    SoloIsCurrent(w, Live(events[..k]), e);
    SoloStep(w, Live(events[..k]), e);
  }

  // -- why the environment is asked for that much --------------------------

  /** The weaker promise: claims run while the name is held, and a batch is
      settled only if no other process has held the name since it was taken. */
  predicate HeldAndFenced(w: World, e: Event)
    requires Enabled(w, e)
  {
    match e
    case ClaimFirst(p, _) => w.store.Holder(w.consumers[p].name) == Some(p)
    case ClaimRest(p, _, _) => w.store.Holder(w.consumers[p].name) == Some(p)
    case Commit(p, _) => w.consumers[p].took == w.Turn(w.consumers[p].name)
    case _ => true
  }

  predicate HeldAndFencedRun(events: seq<Event>)
    requires CanRun(events)
  {
    events == [] || (var k := |events| - 1; HeldAndFencedRun(events[..k]) && HeldAndFenced(Run(events[..k]), events[k]))
  }

  ghost predicate Loses(w: World) {
    exists item :: item in w.trimmed && item !in w.handled
  }

  ghost predicate Leads(events: seq<Event>, w: World, kept: bool) {
    CanRun(events) && Run(events) == w && (kept ==> HeldAndFencedRun(events))
  }

  /** Some run leads here, and one that kept the weaker promise if `kept`. */
  ghost predicate Reached(w: World, kept: bool) {
    exists events :: Leads(events, w, kept)
  }

  lemma Goes(w: World, e: Event, kept: bool)
    requires Reached(w, kept) && Enabled(w, e)
    ensures Reached(Next(w, e), kept && HeldAndFenced(w, e))
  {
    var events :| Leads(events, w, kept);
    assert (events + [e])[..|events|] == events;
    assert Leads(events + [e], Next(w, e), kept && HeldAndFenced(w, e));
  }

  /** What is to be seen of one name. */
  datatype View = View(queue: seq<Item>, list: seq<Item>, holder: Option<Process>, last: Option<Process>, turn: nat,
                       trimmed: multiset<Item>, handled: set<Item>)
  {
    /** The process takes the name, or keeps it. */
    function TakenBy(p: Process): View {
      this.(holder := Some(p), last := Some(p), turn := TurnFor(p))
    }

    function TurnFor(p: Process): nat {
      if last == Some(p) then turn else turn + 1
    }
  }

  function See(w: World, name: string): View {
    View(w.store.queue, w.store.List(name), w.store.Holder(name), w.Last(name), w.Turn(name), w.trimmed, w.handled)
  }

  /** A process of the name, in this phase, in a world some run leads to. */
  ghost predicate At(w: World, kept: bool, p: Process, phase: Phase, v: View) {
    && Reached(w, kept) && p in w.consumers && w.consumers[p].phase == phase
    && See(w, w.consumers[p].name) == v
  }

  /** A step of `p` led to this view, and to `p` like this. */
  ghost predicate Acted(w: World, w': World, kept: bool, p: Process, consumer: Consumer, v: View) {
    && Reached(w', kept) && w'.consumers == w.consumers[p := consumer]
    && See(w', consumer.name) == v
  }

  lemma Begins(w: World, kept: bool, p: Process, name: string) returns (w': World)
    requires Reached(w, kept) && p !in w.consumers
    ensures Acted(w, w', kept, p, Consumer(name, Reserving, 0, 0), See(w, name))
  {
    Goes(w, Begin(p, name), kept);
    w' := Next(w, Begin(p, name));
  }

  lemma Reserves(w: World, kept: bool, p: Process, v: View) returns (w': World)
    requires At(w, kept, p, Reserving, v) && v.holder == None
    ensures Acted(w, w', kept, p, w.consumers[p].(phase := Top(true)), v.TakenBy(p))
  {
    Goes(w, Reserve(p, true), kept);
    w' := Next(w, Reserve(p, true));
  }

  lemma Holds(w: World, kept: bool, p: Process, recovering: bool, v: View) returns (w': World)
    requires At(w, kept, p, Top(recovering), v) && v.holder in {None, Some(p)}
    ensures var c := w.consumers[p];
            Acted(w, w', kept, p,
                  c.(phase := Held(recovering), seen := if recovering then v.TurnFor(p) else c.seen), v.TakenBy(p))
  {
    Goes(w, Renew(p, true), kept);
    w' := Next(w, Renew(p, true));
  }

  lemma Recovers(w: World, kept: bool, p: Process, v: View) returns (w': World)
    requires At(w, kept, p, Held(true), v)
    ensures var c := w.consumers[p];
            Acted(w, w', kept, p,
                  c.(phase := if v.list == [] then Held(false) else Handling(v.list, true), took := v.turn), v)
  {
    Goes(w, Recover(p), kept);
    w' := Next(w, Recover(p));
  }

  lemma ClaimsFirst(w: World, kept: bool, p: Process, v: View) returns (w': World)
    requires At(w, kept, p, Held(false), v) && v.queue != []
    ensures Acted(w, w', kept && v.holder == Some(p), p,
                  w.consumers[p].(phase := Claiming(v.queue[0]), took := v.turn),
                  v.(queue := v.queue[1..], list := v.list + [v.queue[0]]))
  {
    assert w.store.Head(1) == [w.store.queue[0]];
    Goes(w, ClaimFirst(p, true), kept);
    w' := Next(w, ClaimFirst(p, true));
  }

  lemma ClaimsNoMore(w: World, kept: bool, p: Process, first: Item, v: View) returns (w': World)
    requires At(w, kept, p, Claiming(first), v)
    ensures Acted(w, w', kept && v.holder == Some(p), p, w.consumers[p].(phase := Handling([first], false)), v)
  {
    assert w.store.Head(0) == [] && w.store.queue[0..] == w.store.queue && [first] + [] == [first];
    assert v.list + [] == v.list;
    Goes(w, ClaimRest(p, 0, true), kept);
    w' := Next(w, ClaimRest(p, 0, true));
  }

  lemma Handles(w: World, kept: bool, p: Process, items: seq<Item>, stranded: bool, v: View) returns (w': World)
    requires At(w, kept, p, Handling(items, stranded), v)
    ensures Acted(w, w', kept, p, w.consumers[p].(phase := Settling(items, true, stranded)),
                  v.(handled := v.handled + (set x | x in items)))
  {
    Goes(w, Handle(p, true), kept);
    w' := Next(w, Handle(p, true));
  }

  lemma Settles(w: World, kept: bool, p: Process, items: seq<Item>, stranded: bool, v: View) returns (w': World)
    requires At(w, kept, p, Settling(items, true, stranded), v) && v.holder in {None, Some(p)}
    ensures Acted(w, w', kept, p, w.consumers[p].(phase := Committing(items, true, stranded)), v.TakenBy(p))
  {
    Goes(w, Renew(p, true), kept);
    w' := Next(w, Renew(p, true));
  }

  lemma Acks(w: World, kept: bool, p: Process, items: seq<Item>, stranded: bool, v: View) returns (w': World)
    requires At(w, kept, p, Committing(items, true, stranded), v) && v.holder == Some(p)
    ensures var n := Min(|items|, |v.list|);
            Acted(w, w', kept && w.consumers[p].took == v.turn, p,
                  w.consumers[p].(phase := if stranded then Held(false) else Top(false)),
                  v.(list := v.list[n..], trimmed := v.trimmed + multiset(v.list[..n])))
  {
    Goes(w, Commit(p, true), kept);
    w' := Next(w, Commit(p, true));
  }

  lemma Lapses(w: World, kept: bool, name: string) returns (w': World)
    requires Reached(w, kept)
    ensures Reached(w', kept) && w'.consumers == w.consumers
    ensures See(w', name) == See(w, name).(holder := None)
  {
    Goes(w, Lapse(name), kept);
    w' := Next(w, Lapse(name));
  }

  /** A process reserves the name and holds it, with its list still to be recovered. */
  lemma Arrives(w: World, kept: bool, p: Process, name: string, v: View) returns (w': World)
    requires Reached(w, kept) && p !in w.consumers && See(w, name) == v && v.holder == None
    ensures Acted(w, w', kept, p, Consumer(name, Held(true), v.TurnFor(p), 0), v.TakenBy(p))
  {
    w' := Begins(w, kept, p, name);
    w' := Reserves(w', kept, p, v);
    w' := Holds(w', kept, p, true, v.TakenBy(p));
  }

  /** A process joins under the name: it reserves it, finds what its list holds, and goes on from there. */
  lemma Joins(w: World, kept: bool, p: Process, name: string, v: View) returns (w': World)
    requires Reached(w, kept) && p !in w.consumers && See(w, name) == v && v.holder == None
    ensures Acted(w, w', kept, p,
                  Consumer(name, if v.list == [] then Held(false) else Handling(v.list, true),
                           v.TurnFor(p), v.TurnFor(p)),
                  v.TakenBy(p))
  {
    w' := Arrives(w, kept, p, name, v);
    w' := Recovers(w', kept, p, v.TakenBy(p));
  }

  /** A process claims one item. */
  lemma Claims(w: World, kept: bool, p: Process, v: View) returns (w': World)
    requires At(w, kept, p, Held(false), v) && v.queue != []
    ensures Acted(w, w', kept && v.holder == Some(p), p,
                  w.consumers[p].(phase := Handling([v.queue[0]], false), took := v.turn),
                  v.(queue := v.queue[1..], list := v.list + [v.queue[0]]))
  {
    w' := ClaimsFirst(w, kept, p, v);
    w' := ClaimsNoMore(w', kept && v.holder == Some(p), p, v.queue[0],
                       v.(queue := v.queue[1..], list := v.list + [v.queue[0]]));
  }

  /** A process handles its batch of one item and acknowledges it, taking the
      name again first if it has lapsed: the head of the list goes. */
  lemma Finishes(w: World, kept: bool, p: Process, item: Item, stranded: bool, v: View) returns (w': World)
    requires At(w, kept, p, Handling([item], stranded), v) && v.holder in {None, Some(p)} && v.list != []
    ensures Acted(w, w', kept && w.consumers[p].took == v.TurnFor(p), p,
                  w.consumers[p].(phase := if stranded then Held(false) else Top(false)),
                  v.TakenBy(p).(list := v.list[1..], trimmed := v.trimmed + multiset{v.list[0]},
                                handled := v.handled + {item}))
  {
    var v1 := v.(handled := v.handled + {item});
    assert (set x | x in [item]) == {item} && v.list[..1] == [v.list[0]];
    w' := Handles(w, kept, p, [item], stranded, v);
    w' := Settles(w', kept, p, [item], stranded, v1);
    w' := Acks(w', kept, p, [item], stranded, v1.TakenBy(p));
  }

  /** A world of these two processes and this one name. */
  ghost predicate Stage(w: World, kept: bool, p: Process, q: Process, v: View, cp: Consumer, cq: Consumer) {
    && Reached(w, kept) && cp.name == cq.name && p != q
    && See(w, cp.name) == v
    && w.consumers.Keys == {p, q} && w.consumers[p] == cp && w.consumers[q] == cq
  }

  /** `p` is about to claim, with three items waiting. */
  lemma Opening(kept: bool, name: string, p: Process) returns (w: World)
    ensures Reached(w, kept) && w.consumers == map[p := Consumer(name, Held(false), 1, 1)]
    ensures See(w, name) == View([0, 1, 2], [], Some(p), Some(p), 1, multiset{}, {})
  {
    assert Leads([], START, kept);
    var w1, w2, w3 := Next(START, Push), Next(Next(START, Push), Push), Next(Next(Next(START, Push), Push), Push);
    Goes(START, Push, kept);
    Goes(w1, Push, kept);
    Goes(w2, Push, kept);
    w := Joins(w3, kept, p, name, View([0, 1, 2], [], None, None, 0, multiset{}, {}));
  }

  /** `p` loses its name when it was about to claim; `q` takes the name. */
  lemma UnheldClaimOpening(name: string, p: Process, q: Process) returns (w: World)
    requires p != q
    ensures Stage(w, false, p, q, View([0, 1, 2], [], Some(q), Some(q), 2, multiset{}, {}),
                  Consumer(name, Held(false), 1, 1), Consumer(name, Held(false), 2, 2))
  {
    w := Opening(false, name, p);
    w := Lapses(w, false, name);
    w := Joins(w, false, q, name, View([0, 1, 2], [], None, Some(p), 1, multiset{}, {}));
  }

  /** Each claims an item, and `q` is done with its own. */
  lemma UnheldClaimContinues(name: string, p: Process, q: Process, w: World) returns (w': World)
    requires Stage(w, false, p, q, View([0, 1, 2], [], Some(q), Some(q), 2, multiset{}, {}),
                   Consumer(name, Held(false), 1, 1), Consumer(name, Held(false), 2, 2))
    ensures Stage(w', false, p, q, View([2], [1], Some(q), Some(q), 2, multiset{0}, {0}),
                  Consumer(name, Handling([1], false), 1, 2), Consumer(name, Top(false), 2, 2))
  {
    w' := Claims(w, false, q, View([0, 1, 2], [], Some(q), Some(q), 2, multiset{}, {}));
    w' := Claims(w', false, p, View([1, 2], [0], Some(q), Some(q), 2, multiset{}, {}));
    w' := Finishes(w', false, q, 0, false, View([2], [0, 1], Some(q), Some(q), 2, multiset{}, {}));
  }

  /** A run of no processes but these two, both of this name, that loses an item. */
  ghost predicate LosesBetween(events: seq<Event>, name: string, p: Process, q: Process) {
    && CanRun(events) && Loses(Run(events))
    && Run(events).consumers.Keys == {p, q}
    && Run(events).consumers[p].name == name && Run(events).consumers[q].name == name
  }

  /** `q` claims once more, on top of what `p` claimed. */
  lemma UnheldClaimClaims(name: string, p: Process, q: Process, w: World) returns (w': World)
    requires Stage(w, false, p, q, View([2], [1], Some(q), Some(q), 2, multiset{0}, {0}),
                   Consumer(name, Handling([1], false), 1, 2), Consumer(name, Top(false), 2, 2))
    ensures Stage(w', false, p, q, View([], [1, 2], Some(q), Some(q), 2, multiset{0}, {0}),
                  Consumer(name, Handling([1], false), 1, 2), Consumer(name, Handling([2], false), 2, 2))
  {
    w' := Holds(w, false, q, false, View([2], [1], Some(q), Some(q), 2, multiset{0}, {0}));
    w' := Claims(w', false, q, View([2], [1], Some(q), Some(q), 2, multiset{0}, {0}));
  }

  /** Claims must run while the name is held: the claim script does not check
      it, and a claim by a process that lost its name puts an item under its
      successor's batch, whose next acknowledgement trims it unhandled. */
  lemma UnheldClaimLoses(name: string, p: Process, q: Process) returns (events: seq<Event>)
    requires p != q
    ensures LosesBetween(events, name, p, q)
  {
    var w := UnheldClaimOpening(name, p, q);
    w := UnheldClaimContinues(name, p, q, w);
    w := UnheldClaimClaims(name, p, q, w);
    w := Finishes(w, false, q, 2, false, View([], [1, 2], Some(q), Some(q), 2, multiset{0}, {0}));
    events :| Leads(events, w, false);
    assert 1 in w.trimmed && 1 !in w.handled;
  }

  /** `p` loses its name with a batch in hand; `q` recovers that batch. */
  lemma RetakenSettleOpening(name: string, p: Process, q: Process) returns (w: World)
    requires p != q
    ensures Stage(w, false, p, q, View([1, 2], [0], Some(q), Some(q), 2, multiset{}, {}),
                  Consumer(name, Handling([0], false), 1, 1), Consumer(name, Handling([0], true), 2, 2))
  {
    w := Opening(false, name, p);
    w := Claims(w, false, p, View([0, 1, 2], [], Some(p), Some(p), 1, multiset{}, {}));
    w := Lapses(w, false, name);
    w := Joins(w, false, q, name, View([1, 2], [0], None, Some(p), 1, multiset{}, {}));
  }

  /** `q` is done with it, and claims an item of its own. */
  lemma RetakenSettleContinues(name: string, p: Process, q: Process, w: World) returns (w': World)
    requires Stage(w, false, p, q, View([1, 2], [0], Some(q), Some(q), 2, multiset{}, {}),
                   Consumer(name, Handling([0], false), 1, 1), Consumer(name, Handling([0], true), 2, 2))
    ensures Stage(w', false, p, q, View([2], [1], Some(q), Some(q), 2, multiset{0}, {0}),
                  Consumer(name, Handling([0], false), 1, 1), Consumer(name, Handling([1], false), 2, 2))
  {
    w' := Finishes(w, false, q, 0, true, View([1, 2], [0], Some(q), Some(q), 2, multiset{}, {}));
    w' := Claims(w', false, q, View([1, 2], [], Some(q), Some(q), 2, multiset{0}, {0}));
  }

  /** Settling under a name another process has held since the batch was
      taken loses that process's claim: renewing takes a lapsed name again
      without knowing it was another's in between. */
  lemma RetakenSettleLoses(name: string, p: Process, q: Process) returns (events: seq<Event>)
    requires p != q
    ensures LosesBetween(events, name, p, q)
  {
    var w := RetakenSettleOpening(name, p, q);
    w := RetakenSettleContinues(name, p, q, w);
    w := Lapses(w, false, name);
    w := Finishes(w, false, p, 0, false, View([2], [1], None, Some(q), 2, multiset{0}, {0}));
    events :| Leads(events, w, false);
    assert 1 in w.trimmed && 1 !in w.handled;
  }

  /** `p` is between batches when its name lapses; `q` takes the name. */
  lemma RetakenLoopOpening(name: string, p: Process) returns (w: World)
    ensures Reached(w, true) && w.consumers == map[p := Consumer(name, Top(false), 1, 1)]
    ensures See(w, name) == View([1, 2], [], None, Some(p), 1, multiset{0}, {0})
  {
    w := Opening(true, name, p);
    w := Claims(w, true, p, View([0, 1, 2], [], Some(p), Some(p), 1, multiset{}, {}));
    w := Finishes(w, true, p, 0, false, View([1, 2], [0], Some(p), Some(p), 1, multiset{}, {}));
    w := Lapses(w, true, name);
  }

  /** `q` claims, and loses the name with the item in its list. */
  lemma RetakenLoopContinues(name: string, p: Process, q: Process, w: World) returns (w': World)
    requires p != q
    requires Reached(w, true) && w.consumers == map[p := Consumer(name, Top(false), 1, 1)]
    requires See(w, name) == View([1, 2], [], None, Some(p), 1, multiset{0}, {0})
    ensures Stage(w', true, p, q, View([2], [1], None, Some(q), 2, multiset{0}, {0}),
                  Consumer(name, Top(false), 1, 1), Consumer(name, Handling([1], false), 2, 2))
  {
    w' := Joins(w, true, q, name, View([1, 2], [], None, Some(p), 1, multiset{0}, {0}));
    w' := Claims(w', true, q, View([1, 2], [], Some(q), Some(q), 2, multiset{0}, {0}));
    w' := Lapses(w', true, name);
  }

  /** `p` takes the name again and claims. */
  lemma RetakenLoopClaims(name: string, p: Process, q: Process, w: World) returns (w': World)
    requires Stage(w, true, p, q, View([2], [1], None, Some(q), 2, multiset{0}, {0}),
                   Consumer(name, Top(false), 1, 1), Consumer(name, Handling([1], false), 2, 2))
    ensures Stage(w', true, p, q, View([], [1, 2], Some(p), Some(p), 3, multiset{0}, {0}),
                  Consumer(name, Handling([2], false), 1, 3), Consumer(name, Handling([1], false), 2, 2))
  {
    w' := Holds(w, true, p, false, View([2], [1], None, Some(q), 2, multiset{0}, {0}));
    w' := Claims(w', true, p, View([2], [1], Some(p), Some(p), 3, multiset{0}, {0}));
  }

  /** Done with its own item, `p` trims that of `q`. */
  lemma RetakenLoopEnds(name: string, p: Process, q: Process, w: World) returns (w': World)
    requires Stage(w, true, p, q, View([2], [1], None, Some(q), 2, multiset{0}, {0}),
                   Consumer(name, Top(false), 1, 1), Consumer(name, Handling([1], false), 2, 2))
    ensures Stage(w', true, p, q, View([], [2], Some(p), Some(p), 3, multiset{0} + multiset{1}, {0} + {2}),
                  Consumer(name, Top(false), 1, 3), Consumer(name, Handling([1], false), 2, 2))
  {
    w' := RetakenLoopClaims(name, p, q, w);
    w' := Finishes(w', true, p, 2, false, View([], [1, 2], Some(p), Some(p), 3, multiset{0}, {0}));
  }

  /** The weaker promise is not enough: a process that stalls between batches
      takes its lapsed name again at the top of its loop and claims on top of
      what a successor that died left in the list, without recovering it. */
  lemma HeldAndFencedIsNotEnough(name: string, p: Process, q: Process) returns (events: seq<Event>)
    requires p != q
    ensures LosesBetween(events, name, p, q) && HeldAndFencedRun(events)
  {
    var w := RetakenLoopOpening(name, p);
    w := RetakenLoopContinues(name, p, q, w);
    w := RetakenLoopEnds(name, p, q, w);
    events :| Leads(events, w, true);
    assert 1 in w.trimmed && 1 !in w.handled;
  }

  // -- which ways of naming processes lose nothing -------------------------

  /** What each process is called, and which two may be alive at once. */
  datatype Naming = Naming(name: Process -> string, together: (Process, Process) -> bool) {
    predicate Meet(p: Process, q: Process) {
      together(p, q) || together(q, p)
    }

    /** Every process begins under its name, and goes on after another has
        begun only if the two may be alive at once. */
    ghost predicate Allows(events: seq<Event>) {
      && (forall e <- events :: e.Begin? ==> e.name == name(e.p))
      && forall i, j, k | 0 <= i < j < k < |events| && Overlap(events[i], events[j], events[k]) ::
           Meet(events[i].p, events[j].p)
    }

    /** No two processes that may be alive at once share a name. */
    ghost predicate Apart() {
      forall p, q | p != q && Meet(p, q) :: name(p) != name(q)
    }
  }

  /** One process begins, then another, then the first takes a step. */
  predicate Overlap(e: Event, e': Event, step: Event) {
    e.Begin? && e'.Begin? && e.p != e'.p && Actor(step) == Some(e.p)
  }

  lemma ApartIsOneAtATime(naming: Naming, events: seq<Event>)
    requires naming.Apart() && naming.Allows(events)
    ensures OneAtATime(events)
  {
    forall i, j, k | 0 <= i < j < k < |events| && Succeeds(events[i], events[j])
      ensures Actor(events[k]) != Some(events[i].p)
    {
      assert events[i] in events && events[j] in events;
      assert Overlap(events[i], events[j], events[k]) == (Actor(events[k]) == Some(events[i].p));
    }
  }

  /** Whoever has begun is there at the end, under the name it began with. */
  lemma {:induction false} BegunStays(events: seq<Event>, i: nat)
    requires CanRun(events) && i < |events| && events[i].Begin?
    ensures var w := Run(events); events[i].p in w.consumers && w.consumers[events[i].p].name == events[i].name
  {
    var k := |events| - 1;
    if i < k {
      BegunStays(events[..k], i);
      assert events[i] == events[..k][i];
      if !events[k].Begin? { NamesStay(Run(events[..k]), events[k]); }
    }
  }

  /** Two that share a name and may be alive at once can lose an item between them. */
  lemma SharedNameLoses(naming: Naming, p: Process, q: Process) returns (events: seq<Event>)
    requires p != q && naming.Meet(p, q) && naming.name(p) == naming.name(q)
    ensures CanRun(events) && naming.Allows(events) && HeldAndFencedRun(events) && Loses(Run(events))
  {
    events := HeldAndFencedIsNotEnough(naming.name(p), p, q);
    forall i | 0 <= i < |events| && events[i].Begin?
      ensures events[i].p in {p, q} && events[i].name == naming.name(p)
    {
      BegunStays(events, i);
    }
  }

  /** A way of naming processes loses nothing, in any run it allows, if and
      only if no two that may be alive at once share a name. */
  lemma NamingLosesNothing(naming: Naming)
    ensures (forall events | CanRun(events) && naming.Allows(events) :: Delivered(Run(events))) <==> naming.Apart()
  {
    if naming.Apart() {
      forall events | CanRun(events) && naming.Allows(events) ensures Delivered(Run(events)) {
        ApartIsOneAtATime(naming, events);
        OneAtATimeSuffices(events);
        AtLeastOnce(events);
      }
    } else {
      var p, q :| p != q && naming.Meet(p, q) && naming.name(p) == naming.name(q);
      var events := SharedNameLoses(naming, p, q);
      assert !Delivered(Run(events));
    }
  }
}
