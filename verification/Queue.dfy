/** The durable queue of libtb.queue: Valkey's lists and keys, the scripts run
    on them, and the ListQueue a consumer drives them with. */
module Queue {
  import opened Wrappers

  /** One pushed item: its position among all pushes. Nothing reads it; it
      only tells two pushes of the same payload apart. */
  type Item = nat

  /** What Valkey holds. A list that is emptied stops existing, so `lists`
      never maps a name to []. */
  datatype Store = Store(queue: seq<Item>, lists: map<string, seq<Item>>, owners: map<string, string>) {

    /** The processing list of a consumer name. */
    function List(name: string): seq<Item> {
      if name in lists then lists[name] else []
    }

    function Put(name: string, items: seq<Item>): Store {
      this.(lists := if items == [] then lists - {name} else lists[name := items])
    }

    /** The items a claim of `n` takes: the head of the queue. */
    function Head(n: nat): seq<Item> {
      queue[..Min(n, |queue|)]
    }

    /** After `n` claims into the name's list. */
    function Claim(name: string, n: nat): Store {
      Put(name, List(name) + Head(n)).(queue := queue[Min(n, |queue|)..])
    }

    /** How many items stay when `n` are moved back from the list's tail. */
    function Left(name: string, n: nat): nat {
      |List(name)| - Min(n, |List(name)|)
    }

    /** After `n` items of the name's list went back to the head of the queue, in order. */
    function Requeue(name: string, n: nat): Store {
      var l := List(name);
      Put(name, l[..Left(name, n)]).(queue := l[Left(name, n)..] + queue)
    }

    /** After LTRIM n -1. */
    function Trim(name: string, n: nat): Store {
      Put(name, List(name)[Min(n, |List(name)|)..])
    }

    /** The holder of a name, if any. */
    function Holder(name: string): Option<string> {
      if name in owners then Some(owners[name]) else None
    }

    /** RENEW_SCRIPT: held already, or free and taken again. */
    predicate Renewable(name: string, token: string) {
      Holder(name) in {None, Some(token)}
    }

    function Take(name: string, token: string): Store {
      this.(owners := owners[name := token])
    }

    function Free(name: string): Store {
      this.(owners := owners - {name})
    }

    /** Every item in the store, wherever it is. */
    ghost function All(): multiset<Item> {
      multiset(queue) + Sum(lists)
    }
  }

  /** Every item of every processing list. */
  ghost function Sum(lists: map<string, seq<Item>>): multiset<Item> {
    if lists == map[] then multiset{}
    else
      var name :| name in lists;
      multiset(lists[name]) + Sum(lists - {name})
  }

  lemma {:induction false} SumRemove(lists: map<string, seq<Item>>, name: string)
    requires name in lists
    ensures Sum(lists) == multiset(lists[name]) + Sum(lists - {name})
    decreases |lists|
  {
    var first :| first in lists && Sum(lists) == multiset(lists[first]) + Sum(lists - {first});
    if first != name {
      SumRemove(lists - {first}, name);
      SumRemove(lists - {name}, first);
      assert lists - {first} - {name} == lists - {name} - {first};
    }
  }

  /** Replacing one list changes the total by exactly that list. */
  lemma SumPut(s: Store, name: string, items: seq<Item>)
    ensures Sum(s.Put(name, items).lists) + multiset(s.List(name)) == Sum(s.lists) + multiset(items)
  {
    var after := s.Put(name, items).lists;
    assert after - {name} == s.lists - {name};
    if name in after { SumRemove(after, name); } else { assert after - {name} == after; }
    if name in s.lists { SumRemove(s.lists, name); } else { assert s.lists - {name} == s.lists; }
  }

  /** Moving `part` between the queue and a list keeps the total. */
  lemma MoveConserves(whole: multiset<Item>, rest: multiset<Item>, part: multiset<Item>,
                      sums: multiset<Item>, sums': multiset<Item>, l: multiset<Item>, l': multiset<Item>)
    requires whole == part + rest && l' == l + part
    requires sums' + l == sums + l'
    ensures rest + sums' == whole + sums
  {
    forall x: Item ensures (rest + sums')[x] == (whole + sums)[x] {
      assert whole[x] == part[x] + rest[x] && l'[x] == l[x] + part[x];
      assert (sums' + l)[x] == (sums + l')[x];
    }
  }

  lemma Cut(s: seq<Item>, k: nat)
    requires k <= |s|
    ensures multiset(s) == multiset(s[..k]) + multiset(s[k..])
  {
    assert s == s[..k] + s[k..];
  }

  /** A claim moves items: each is in one place before and one place after. */
  lemma ClaimConserves(s: Store, name: string, n: nat)
    ensures s.Claim(name, n).All() == s.All()
  {
    var k := Min(n, |s.queue|);
    SumPut(s, name, s.List(name) + s.Head(n));
    Cut(s.queue, k);
    MoveConserves(multiset(s.queue), multiset(s.queue[k..]), multiset(s.Head(n)),
                  Sum(s.lists), Sum(s.Claim(name, n).lists),
                  multiset(s.List(name)), multiset(s.List(name) + s.Head(n)));
  }

  /** So does a requeue. */
  lemma RequeueConserves(s: Store, name: string, n: nat)
    ensures s.Requeue(name, n).All() == s.All()
  {
    var l, k := s.List(name), s.Left(name, n);
    var r := s.Requeue(name, n);
    SumPut(s, name, l[..k]);
    Cut(l, k);
    MoveConserves(multiset(r.queue), multiset(s.queue), multiset(l[k..]),
                  Sum(r.lists), Sum(s.lists), multiset(l[..k]), multiset(l));
  }

  /** A trim takes away exactly the first items of the list. */
  lemma TrimTakes(s: Store, name: string, n: nat)
    ensures s.Trim(name, n).All() + multiset(s.List(name)[..Min(n, |s.List(name)|)]) == s.All()
  {
    var l, k := s.List(name), Min(n, |s.List(name)|);
    SumPut(s, name, l[k..]);
    Cut(l, k);
    var t := s.Trim(name, n);
    forall x: Item ensures (t.All() + multiset(l[..k]))[x] == s.All()[x] {
      assert (Sum(t.lists) + multiset(l))[x] == (Sum(s.lists) + multiset(l[k..]))[x];
      assert multiset(l)[x] == multiset(l[..k])[x] + multiset(l[k..])[x];
    }
  }

  lemma NothingMoved(s: Store, name: string)
    requires name in s.lists ==> s.lists[name] != []
    ensures s.Claim(name, 0) == s && s.Requeue(name, 0) == s
  {
    var l := s.List(name);
    assert l + s.Head(0) == l && s.queue[0..] == s.queue;
    assert l[..|l|] == l && l[|l|..] + s.queue == s.queue;
    assert s.Put(name, l).lists == s.lists;
  }

  lemma PutTwice(s: Store, name: string, first: seq<Item>, items: seq<Item>)
    ensures s.Put(name, first).Put(name, items).lists == s.Put(name, items).lists
    ensures s.Put(name, first).List(name) == first
  {
  }

  lemma Slices(q: seq<Item>, i: nat, k: nat)
    requires i + k <= |q|
    ensures q[i..][..k] == q[i..i + k] && q[i..][k..] == q[i + k..]
    ensures q[..i + k] == q[..i] + q[i..i + k]
  {
  }

  lemma ClaimMore(s: Store, name: string, i: nat, j: nat)
    requires i <= |s.queue|
    ensures s.Claim(name, i).Claim(name, j) == s.Claim(name, i + j)
    ensures s.Head(i + j) == s.Head(i) + s.Claim(name, i).Head(j)
  {
    var k := Min(i + j, |s.queue|) - i;
    Slices(s.queue, i, k);
    var t, l := s.Claim(name, i), s.List(name);
    assert t.queue == s.queue[i..] && t.Head(j) == s.queue[i..i + k];
    PutTwice(s, name, l + s.Head(i), l + s.Head(i + j));
    assert t.lists == s.Put(name, l + s.Head(i)).lists && t.List(name) == l + s.Head(i);
    assert t.List(name) + t.Head(j) == l + s.Head(i + j);
    assert t.Put(name, l + s.Head(i + j)).lists == s.Put(name, l + s.Head(i + j)).lists;
  }

  lemma ClaimStep(s: Store, name: string, n: nat, i: nat, t: Store, item: Option<Item>)
    requires i < n && i <= |s.queue| && t == s.Claim(name, i)
    requires item == if t.queue == [] then None else Some(t.queue[0])
    ensures item.Some? ==> i < |s.queue| && s.Head(i) + [item.value] == s.Head(i + 1)
                           && t.Claim(name, 1) == s.Claim(name, i + 1)
    ensures item.None? ==> t == s.Claim(name, n) && s.Head(i) == s.Head(n)
  {
    ClaimMore(s, name, i, 1);
  }

  /** Claiming and then requeueing as many gives back the queue and the list, order included. */
  lemma ClaimThenRequeue(s: Store, name: string, n: nat)
    requires name in s.lists ==> s.lists[name] != []
    ensures s.Claim(name, n).Requeue(name, |s.Head(n)|) == s
  {
    var c, k := s.Claim(name, n), |s.Head(n)|;
    assert c.List(name) == s.List(name) + s.Head(n);
    assert c.Left(name, k) == |s.List(name)|;
    assert c.List(name)[..|s.List(name)|] == s.List(name);
    assert c.List(name)[|s.List(name)|..] == s.Head(n);
    assert s.Head(n) + s.queue[k..] == s.queue;
    var r := c.Requeue(name, k);
    assert r.lists == s.lists;
  }

  /** Valkey, with each script one atomic step. Expiry of an owner key is the
      environment's, and happens between the calls. */
  class Valkey {
    var queue: seq<Item>
    var lists: map<string, seq<Item>>
    var owners: map<string, string>

    ghost function Content(): Store
      reads this
    {
      Store(queue, lists, owners)
    }

    constructor ()
      ensures Content() == Store([], map[], map[])
    {
      queue, lists, owners := [], map[], map[];
    }

    method Rpush(item: Item)
      modifies this`queue
      ensures Content() == old(Content()).(queue := old(queue) + [item])
    {
      queue := queue + [item];
    }

    /** One LMOVE LEFT RIGHT from the queue to a list. */
    method MoveOut(name: string) returns (item: Option<Item>)
      modifies this`queue, this`lists
      ensures item == if old(queue) == [] then None else Some(old(queue)[0])
      ensures Content() == if item.Some? then old(Content()).Claim(name, 1) else old(Content())
    {
      if queue == [] { return None; }
      item := Some(queue[0]);
      lists := lists[name := (if name in lists then lists[name] else []) + [queue[0]]];
      queue := queue[1..];
      assert old(Content()).Head(1) == [old(queue)[0]];
    }

    /** One LMOVE RIGHT LEFT from a list back to the queue. */
    method MoveBack(name: string) returns (moved: bool)
      modifies this`queue, this`lists
      ensures moved <==> old(Content()).List(name) != []
      ensures Content() == if moved then old(Content()).Requeue(name, 1) else old(Content())
    {
      if name !in lists || lists[name] == [] { return false; }
      var last := |lists[name]| - 1;
      queue := [lists[name][last]] + queue;
      assert lists[name][last..] == [lists[name][last]];
      lists := if last == 0 then lists - {name} else lists[name := lists[name][..last]];
      moved := true;
    }

    /** CLAIM_SCRIPT: up to `n` items, one at a time, stopping when the queue is empty. */
    method ClaimScript(name: string, n: nat) returns (claimed: seq<Item>)
      requires name in lists ==> lists[name] != []
      modifies this`queue, this`lists
      ensures claimed == old(Content()).Head(n)
      ensures Content() == old(Content()).Claim(name, n)
    {
      claimed := [];
      ghost var s, t := Content(), Content();
      NothingMoved(s, name);
      for i := 0 to n
        invariant i <= |s.queue| && claimed == s.Head(i)
        invariant Content() == t == s.Claim(name, i)
      {
        var item := MoveOut(name);
        ClaimStep(s, name, n, i, t, item);
        if item == None {
          return;
        }
        claimed := claimed + [item.value];
        t := s.Claim(name, i + 1);
      }
    }

    /** ACK_SCRIPT, `None` for its -1. */
    method AckScript(name: string, token: string, count: nat) returns (acked: Option<int>)
      modifies this`lists
      ensures acked.Some? <==> old(Content()).Holder(name) == Some(token)
      ensures Content() == if acked.Some? then old(Content()).Trim(name, count) else old(Content())
    {
      if name !in owners || owners[name] != token { return None; }
      var l := if name in lists then lists[name] else [];
      var kept := if count <= |l| then l[count..] else [];
      lists := if kept == [] then lists - {name} else lists[name := kept];
      acked := Some(1);
    }

    /** REQUEUE_SCRIPT, `None` for its -1. */
    method RequeueScript(name: string, token: string, count: nat) returns (moved: Option<nat>)
      requires name in lists ==> lists[name] != []
      modifies this`queue, this`lists
      ensures moved.Some? <==> old(Content()).Holder(name) == Some(token)
      ensures moved.Some? ==> moved.value == Min(count, |old(Content()).List(name)|)
      ensures Content() == if moved.Some? then old(Content()).Requeue(name, count) else old(Content())
    {
      if name !in owners || owners[name] != token { return None; }
      var n := MoveBackMany(name, count);
      moved := Some(n);
    }

    /** The loop both the script and the sweep run: up to `limit` items back, last first. */
    method MoveBackMany(name: string, limit: nat) returns (moved: nat)
      requires name in lists ==> lists[name] != []
      modifies this`queue, this`lists
      ensures moved == Min(limit, |old(Content()).List(name)|)
      ensures Content() == old(Content()).Requeue(name, limit)
    {
      moved := 0;
      ghost var s := Content();
      NothingMoved(s, name);
      while moved < limit
        invariant moved <= limit && moved <= |s.List(name)|
        invariant Content() == s.Requeue(name, moved)
      {
        var more := MoveBack(name);
        if !more {
          assert s.Requeue(name, moved).List(name) == s.List(name)[..s.Left(name, moved)];
          assert s.Left(name, moved) == 0;
          break;
        }
        StepBack(s, name, moved);
        moved := moved + 1;
      }
      assert moved < limit ==> s.Requeue(name, limit) == s.Requeue(name, moved);
    }

    static lemma StepBack(s: Store, name: string, k: nat)
      requires name in s.lists ==> s.lists[name] != []
      requires s.Requeue(name, k).List(name) != []
      ensures k < |s.List(name)|
      ensures s.Requeue(name, k).Requeue(name, 1) == s.Requeue(name, k + 1)
    {
      var l := s.List(name);
      assert s.Requeue(name, k).List(name) == l[..s.Left(name, k)];
      var j := s.Left(name, k);
      assert l[..j][..j - 1] == l[..j - 1];
      assert l[..j][j - 1..] + (l[j..] + s.queue) == l[j - 1..] + s.queue;
      assert s.Requeue(name, k).Requeue(name, 1).lists == s.Requeue(name, k + 1).lists;
    }

    /** RENEW_SCRIPT. */
    method RenewScript(name: string, token: string) returns (held: bool)
      modifies this`owners
      ensures held <==> old(Content()).Renewable(name, token)
      ensures Content() == if held then old(Content()).Take(name, token) else old(Content())
    {
      if name in owners && owners[name] == token { return true; }
      if name !in owners {
        owners := owners[name := token];
        return true;
      }
      held := false;
    }

    /** RELEASE_SCRIPT. */
    method ReleaseScript(name: string, token: string)
      modifies this`owners
      ensures Content() == if old(Content()).Holder(name) == Some(token)
                           then old(Content()).Free(name) else old(Content())
    {
      if name in owners && owners[name] == token {
        owners := owners - {name};
      }
    }
  }

  datatype Settled = Done(moved: nat) | NotOwner

  /** One consumer's view of the queue. */
  class ListQueue {
    const redis: Valkey
    const consumer: string
    const owner: string
    var reserved: bool

    constructor (redis: Valkey, consumer: string, owner: string)
      ensures this.redis == redis && this.consumer == consumer && this.owner == owner && !reserved
    {
      this.redis, this.consumer, this.owner, reserved := redis, consumer, owner, false;
    }

    /** SET NX: taken only when nobody has it. */
    method Reserve() returns (taken: bool)
      modifies this, redis`owners
      ensures taken == reserved == (old(redis.Content()).Holder(consumer) == None)
      ensures redis.Content() == if taken then old(redis.Content()).Take(consumer, owner) else old(redis.Content())
    {
      reserved := consumer !in redis.owners;
      if reserved {
        redis.owners := redis.owners[consumer := owner];
      }
      taken := reserved;
    }

    method Renew() returns (held: bool)
      modifies redis`owners
      ensures held <==> !reserved || old(redis.Content()).Renewable(consumer, owner)
      ensures redis.Content() == if reserved && held then old(redis.Content()).Take(consumer, owner)
                                 else old(redis.Content())
    {
      if !reserved { return true; }
      held := redis.RenewScript(consumer, owner);
    }

    method Release()
      modifies this`reserved, redis`owners
      ensures !reserved
      ensures redis.Content() == if old(reserved) && old(redis.Content()).Holder(consumer) == Some(owner)
                                 then old(redis.Content()).Free(consumer) else old(redis.Content())
    {
      if !reserved { return; }
      redis.ReleaseScript(consumer, owner);
      reserved := false;
    }

    /** What is stranded in this name's processing list. */
    method Recover() returns (items: seq<Item>)
      ensures items == redis.Content().List(consumer)
    {
      items := if consumer in redis.lists then redis.lists[consumer] else [];
    }

    /** BLMOVE for the first item, one script for the rest; not checked against the owner key. */
    method Claim(maxItems: int) returns (claimed: seq<Item>)
      requires consumer in redis.lists ==> redis.lists[consumer] != []
      modifies redis`queue, redis`lists
      ensures claimed == old(redis.Content()).Head(Max(1, maxItems))
      ensures claimed != [] ==> redis.Content() == old(redis.Content()).Claim(consumer, Max(1, maxItems))
      ensures claimed == [] ==> redis.Content() == old(redis.Content())
    {
      ghost var s := redis.Content();
      var first := redis.MoveOut(consumer);
      if first == None { return []; }
      claimed := [first.value];
      assert s.Head(1) == claimed;
      if maxItems > 1 {
        var rest := redis.ClaimScript(consumer, maxItems - 1);
        assert s.Head(maxItems) == claimed + rest;
        ClaimMore(s, consumer, 1, maxItems - 1);
        claimed := claimed + rest;
      }
    }

    method Ack(count: nat) returns (r: Settled)
      requires reserved
      modifies redis`lists
      ensures r.NotOwner? <==> count > 0 && old(redis.Content()).Holder(consumer) != Some(owner)
      ensures redis.Content() == if r.Done? && count > 0 then old(redis.Content()).Trim(consumer, count)
                                 else old(redis.Content())
    {
      if count <= 0 { return Done(0); }
      var acked := redis.AckScript(consumer, owner, count);
      r := if acked == None then NotOwner else Done(0);
    }

    method Requeue(items: seq<Item>) returns (r: Settled)
      requires reserved
      requires consumer in redis.lists ==> redis.lists[consumer] != []
      modifies redis`queue, redis`lists
      ensures r.NotOwner? <==> old(redis.Content()).Holder(consumer) != Some(owner)
      ensures r.Done? ==> r.moved == Min(|items|, |old(redis.Content()).List(consumer)|)
      ensures redis.Content() == if r.Done? then old(redis.Content()).Requeue(consumer, |items|)
                                 else old(redis.Content())
    {
      var moved := redis.RequeueScript(consumer, owner, |items|);
      r := if moved == None then NotOwner else Done(moved.value);
    }
  }

  const REQUEUE_SLACK: nat := 10000

  /** requeue_list: with nobody claiming meanwhile, the whole list goes back. */
  method RequeueList(redis: Valkey, name: string) returns (moved: nat)
    requires name in redis.lists ==> redis.lists[name] != []
    modifies redis`queue, redis`lists
    ensures moved == |old(redis.Content()).List(name)|
    ensures redis.Content() == old(redis.Content()).Requeue(name, moved)
    ensures redis.Content().List(name) == []
  {
    var limit := (if name in redis.lists then |redis.lists[name]| else 0) + REQUEUE_SLACK;
    moved := redis.MoveBackMany(name, limit);
    assert old(redis.Content()).Requeue(name, limit) == old(redis.Content()).Requeue(name, moved);
  }

  /** What a sweep of these names leaves: every list whose name nobody holds goes back whole. */
  ghost function Swept(s: Store, names: seq<string>): Store {
    if names == [] then s
    else
      var name := names[|names| - 1];
      var before := Swept(s, names[..|names| - 1]);
      if before.Holder(name) != None then before else before.Requeue(name, |before.List(name)|)
  }

  ghost predicate NoEmptyLists(s: Store) {
    forall name <- s.lists :: s.lists[name] != []
  }

  /** A sweep loses nothing, empties exactly the unheld lists it was given, and leaves the rest alone. */
  lemma {:induction false} SweptIsSafe(s: Store, names: seq<string>)
    requires NoEmptyLists(s)
    ensures NoEmptyLists(Swept(s, names))
    ensures Swept(s, names).All() == s.All() && Swept(s, names).owners == s.owners
    ensures forall name :: Swept(s, names).List(name)
                           == if name in names && s.Holder(name) == None then [] else s.List(name)
  {
    if names != [] {
      var k := |names| - 1;
      SweptIsSafe(s, names[..k]);
      var before := Swept(s, names[..k]);
      RequeueConserves(before, names[k], |before.List(names[k])|);
      assert names == names[..k] + [names[k]];
    }
  }

  /** How many of these lists a sweep counts: those nobody holds, and only
      those with something in them when the consumers were named one by one. */
  function ListsSwept(s: Store, names: seq<string>, named: bool): nat {
    if names == [] then 0
    else
      var name := names[|names| - 1];
      ListsSwept(s, names[..|names| - 1], named)
      + if s.Holder(name) == None && (s.List(name) != [] || !named) then 1 else 0
  }

  /** And how many items were in them. */
  function ItemsSwept(s: Store, names: seq<string>): nat {
    if names == [] then 0
    else
      var name := names[|names| - 1];
      ItemsSwept(s, names[..|names| - 1]) + if s.Holder(name) == None then |s.List(name)| else 0
  }

  /** Nobody holds the name, and there is something in its list unless the consumers were not named. */
  predicate Sweeps(s: Store, name: string, named: bool) {
    name !in s.owners && (named ==> name in s.lists && s.lists[name] != [])
  }

  function Counted(s: Store, names: seq<string>, named: bool): set<string> {
    set name | name in names && Sweeps(s, name, named)
  }

  lemma CountedNext(s: Store, front: seq<string>, name: string, named: bool)
    requires name !in front
    ensures |Counted(s, front + [name], named)|
            == |Counted(s, front, named)| + if Sweeps(s, name, named) then 1 else 0
  {
    var before, all := Counted(s, front, named), Counted(s, front + [name], named);
    if Sweeps(s, name, named) {
      assert all == before + {name} && name !in before;
    } else {
      assert all == before;
    }
  }

  lemma SweptNext(s: Store, front: seq<string>, name: string, named: bool)
    ensures ListsSwept(s, front + [name], named)
            == ListsSwept(s, front, named) + if Sweeps(s, name, named) then 1 else 0
  {
    var names := front + [name];
    assert names[..|names| - 1] == front && names[|names| - 1] == name;
  }

  /** The lists counted are those of the names nobody holds, the empty ones only where the consumers were not named. */
  lemma {:induction false} ListsCounted(s: Store, names: seq<string>, named: bool)
    requires Distinct(names)
    ensures ListsSwept(s, names, named) == |Counted(s, names, named)|
  {
    if names == [] {
      assert Counted(s, names, named) == {};
    } else {
      var n := |names| - 1;
      var front, last := names[..n], names[n];
      assert names == front + [last] && last !in front;
      ListsCounted(s, front, named);
      CountedNext(s, front, last, named);
      SweptNext(s, front, last, named);
    }
  }

  /** One name more: what the sweep has come to, told by the store before it. */
  lemma SweepsOne(s: Store, names: seq<string>, i: nat, named: bool)
    requires i < |names| && Distinct(names) && NoEmptyLists(s)
    ensures var before, name := Swept(s, names[..i]), names[i];
            && NoEmptyLists(before) && before.List(name) == s.List(name) && before.owners == s.owners
            && Swept(s, names[..i + 1])
               == (if name in s.owners then before else before.Requeue(name, |s.List(name)|))
            && ListsSwept(s, names[..i + 1], named)
               == ListsSwept(s, names[..i], named) + (if Sweeps(s, name, named) then 1 else 0)
            && ItemsSwept(s, names[..i + 1])
               == ItemsSwept(s, names[..i]) + if name in s.owners then 0 else |s.List(name)|
  {
    assert names[..i + 1][..i] == names[..i] && names[..i + 1] == names[..i] + [names[i]];
    SweptIsSafe(s, names[..i]);
    SweptNext(s, names[..i], names[i], named);
    assert names[i] !in names[..i];
  }

  /** recover_orphans over the names it chose, each once, in order. */
  method RecoverOrphans(redis: Valkey, names: seq<string>, named: bool) returns (swept: nat, requeued: nat)
    requires NoEmptyLists(redis.Content()) && Distinct(names)
    modifies redis`queue, redis`lists
    ensures redis.Content() == Swept(old(redis.Content()), names)
    ensures swept == ListsSwept(old(redis.Content()), names, named)
    ensures requeued == ItemsSwept(old(redis.Content()), names)
    ensures |redis.queue| == |old(redis.queue)| + requeued
  {
    swept, requeued := 0, 0;
    ghost var s := redis.Content();
    for i := 0 to |names|
      invariant redis.Content() == Swept(s, names[..i])
      invariant redis.owners == s.owners
      invariant swept == ListsSwept(s, names[..i], named) && requeued == ItemsSwept(s, names[..i])
      invariant |redis.queue| == |s.queue| + requeued
    {
      SweepsOne(s, names, i, named);
      if names[i] !in redis.owners {
        var moved := RequeueList(redis, names[i]);
        if moved > 0 || !named { swept := swept + 1; }
        requeued := requeued + moved;
      }
    }
    assert names[..|names|] == names;
  }
}
