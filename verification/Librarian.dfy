/** The librarian's start itself: `reconcile` of libtb.retention over the ISM
    calls it makes, each a change to the cluster in place. */
module Librarian {
  import opened Wrappers
  import opened Retention
  import Patterns

  const BATCH: nat := 50

  datatype Verb = Add | ChangePolicy | Remove

  /** What one of ISM's index actions does to the indices that take it. */
  function Applied(c: Cluster, verb: Verb, names: set<string>): Cluster
    requires verb.Remove? || c.policy.Some?
  {
    match verb
    case Add => c.Attach(names, c.policy.value.body)
    case ChangePolicy => c.MoveToLatest(names)
    case Remove => c.Detach(names)
  }

  /** Batch after batch is the same as all at once. */
  lemma AppliedTwice(c: Cluster, verb: Verb, first: set<string>, second: set<string>)
    requires verb.Remove? || c.policy.Some?
    ensures Applied(Applied(c, verb, first), verb, second) == Applied(c, verb, first + second)
  {
    match verb
    case Add => AttachedTwice(c, first, second, c.policy.value.body);
    case ChangePolicy => MovedTwice(c, first, second);
    case Remove => DetachedTwice(c, first, second);
  }

  lemma AttachedTwice(c: Cluster, first: set<string>, second: set<string>, body: Body)
    ensures c.Attach(first, body).Attach(second, body) == c.Attach(first + second, body)
  {
    var once, twice := c.Attach(first + second, body), c.Attach(first, body).Attach(second, body);
    assert once.managed == twice.managed && once.hidden == twice.hidden;
  }

  lemma MovedTwice(c: Cluster, first: set<string>, second: set<string>)
    requires c.policy.Some?
    ensures c.MoveToLatest(first).MoveToLatest(second) == c.MoveToLatest(first + second)
  {
    assert c.MoveToLatest(first).MoveToLatest(second).managed == c.MoveToLatest(first + second).managed;
  }

  lemma DetachedTwice(c: Cluster, first: set<string>, second: set<string>)
    ensures c.Detach(first).Detach(second) == c.Detach(first + second)
  {
    var once, twice := c.Detach(first + second), c.Detach(first).Detach(second);
    assert once.managed == twice.managed && once.hidden == twice.hidden;
  }

  lemma AppliedToNone(c: Cluster, verb: Verb)
    requires verb.Remove? || c.policy.Some?
    ensures Applied(c, verb, {}) == c
  {
    assert Applied(c, verb, {}).managed == c.managed;
  }

  /** What a start reports. */
  datatype Report = Report(action: Action, ok: bool, changed: nat, failures: set<string>, wouldDelete: set<string>)

  lemma ElementsNext(names: seq<string>, i: nat, j: nat)
    requires i <= j <= |names|
    ensures Elements(names[..j]) == Elements(names[..i]) + Elements(names[i..j])
  {
    assert names[..j] == names[..i] + names[i..j];
  }

  class Ism {
    var policy: Option<Stored>
    var others: map<string, seq<seq<string>>>
    var managed: map<string, Entry>
    var hidden: set<string>
    var created: map<string, real>
    var writes: nat

    function Content(): Cluster
      reads this
    {
      Cluster(policy, others, managed, hidden, created, writes)
    }

    constructor (c: Cluster)
      ensures Content() == c
    {
      policy, others, managed, hidden := c.policy, c.others, c.managed, c.hidden;
      created, writes := c.created, c.writes;
    }

    method PutPolicy(body: Body) returns (version: nat)
      modifies this`policy, this`writes
      ensures Content() == old(Content()).Put(body) && version == old(writes)
    {
      version := writes;
      policy, writes := Some(Stored(body, writes)), writes + 1;
    }

    /** Waiting for ISM's config index to refresh: everything is listed after it. */
    method Wait()
      modifies this`hidden
      ensures Content() == old(Content()).(hidden := {})
    {
      hidden := {};
    }

    /** One request. */
    method Post(verb: Verb, taken: set<string>)
      requires verb.Remove? || policy.Some?
      modifies this`managed, this`hidden
      ensures Content() == Applied(old(Content()), verb, taken)
    {
      match verb {
        case Add => managed := managed + map name | name in taken :: Entry(POLICY_ID, policy.value.body, None);
        case ChangePolicy =>
          managed := map name | name in managed ::
            if name in taken then Entry(POLICY_ID, policy.value.body, Some(policy.value.version)) else managed[name];
        case Remove => managed, hidden := managed - taken, hidden - taken;
      }
    }

    /** The names of one request: what ISM refuses is left as it was. */
    method Batch(verb: Verb, names: seq<string>, fails: set<string>, ghost c: Cluster, ghost before: set<string>)
      returns (changed: nat, failures: set<string>)
      requires verb.Remove? || (policy.Some? && c.policy.Some?)
      requires Content() == Applied(c, verb, before)
      modifies this`managed, this`hidden
      ensures Content() == Applied(c, verb, before + (Elements(names) - fails))
      ensures failures == Elements(names) * fails
    {
      var taken := set name | name in names && name !in fails;
      assert taken == Elements(names) - fails;
      AppliedTwice(c, verb, before, taken);
      Post(verb, taken);
      changed, failures := |taken|, set name | name in names && name in fails;
    }

    /** One index action, in batches; what ISM refuses is left as it was. */
    method Each(verb: Verb, names: seq<string>, fails: set<string>) returns (changed: nat, failures: set<string>)
      requires verb.Remove? || policy.Some?
      modifies this`managed, this`hidden
      ensures Content() == Applied(old(Content()), verb, Elements(names) - fails)
      ensures failures == Elements(names) * fails
    {
      changed, failures := 0, {};
      ghost var c := Content();
      var i := 0;
      AppliedToNone(c, verb);
      assert Elements(names[..0]) - fails == {};
      while i < |names|
        invariant i <= |names|
        invariant Content() == Applied(c, verb, Elements(names[..i]) - fails)
        invariant failures == Elements(names[..i]) * fails
      {
        var j := Min(i + BATCH, |names|);
        ElementsNext(names, i, j);
        var taken, left := Batch(verb, names[i..j], fails, c, Elements(names[..i]) - fails);
        assert Elements(names[..j]) - fails == (Elements(names[..i]) - fails) + (Elements(names[i..j]) - fails);
        changed := changed + taken;
        failures := failures + left;
        i := j;
      }
      assert names[..|names|] == names;
    }

    /** The other policies with a template that overlaps ours, which then keeps none. */
    method FindConflicts(prefix: string) returns (conflicts: set<string>)
      ensures forall id :: id in conflicts <==> id in others && Conflicts(others[id], prefix)
      ensures conflicts != {} <==> Conflicted(Content(), prefix)
    {
      conflicts := {};
      var ids := others.Keys;
      while ids != {}
        invariant ids <= others.Keys
        invariant forall id :: id in conflicts <==> id in others && id !in ids && Conflicts(others[id], prefix)
        decreases |ids|
      {
        var id :| id in ids;
        var conflict := HasConflict(others[id], prefix);
        if conflict { conflicts := conflicts + {id}; }
        ids := ids - {id};
      }
      if conflicts != {} { var id :| id in conflicts; }
    }

    static method HasConflict(templates: seq<seq<string>>, prefix: string) returns (conflict: bool)
      ensures conflict <==> Conflicts(templates, prefix)
    {
      for i := 0 to |templates|
        invariant forall template <- templates[..i], pattern <- template ::
          !Patterns.Meet(pattern, IndexPattern(prefix))
      {
        var template := templates[i];
        for j := 0 to |template|
          invariant forall pattern <- template[..j] :: !Patterns.Meet(pattern, IndexPattern(prefix))
        {
          var overlap := Patterns.PatternsOverlap(template[j], IndexPattern(prefix));
          if overlap {
            assert template in templates && template[j] in template;
            return true;
          }
        }
      }
      assert templates[..|templates|] == templates;
      conflict := false;
    }

    /** _converge: indices that lag behind the policy's version are moved onto it. */
    method Converge(names: set<string>, fails: set<string>) returns (moved: nat, failures: set<string>)
      modifies this`managed, this`hidden
      ensures Content() == Converged(old(Content()), names, fails)
      ensures failures == if old(policy).None? then {}
                          else Lagging(old(Content()), names, old(policy).value.version) * fails
    {
      if policy.None? { return 0, {}; }
      var lagging := Lagging(Content(), names, policy.value.version);
      var order := Sequence(lagging);
      moved, failures := Each(ChangePolicy, order, fails);
    }

    /** _turn_off: the template goes first, then the policy off every index, and only then the policy. */
    method TurnOff(fails: set<string>) returns (report: Report)
      modifies this
      ensures Content() == TurnedOff(old(Content()), fails)
      ensures report.ok ==> policy.None?
      ensures report.action in {Action.Remove, Off}
    {
      ghost var c := Content();
      var pending := Content().Listed();
      if policy.None? && pending == {} { return Report(Off, true, 0, {}, {}); }
      if policy.Some? && policy.value.body.templates != [] {
        var _ := PutPolicy(WithoutTemplate(policy.value.body));
      }
      ghost var start := Content();
      var rounds, left := SETTLE_ROUNDS, false;
      var changed: nat, failures: set<string> := 0, {};
      while true
        invariant Settled(start, c.Listed(), fails, SETTLE_ROUNDS) == Settled(Content(), pending, fails, rounds)
        invariant failures == {} && policy == start.policy
        decreases rounds
      {
        if rounds == 0 {
          left := true;
          break;
        }
        rounds := rounds - 1;
        var order := Sequence(pending);
        var n: nat;
        n, failures := Each(Verb.Remove, order, fails);
        changed := changed + n;
        if failures != {} {
          left := true;
          break;
        }
        Wait();
        pending := Content().Listed();
        if pending == {} { break; }
      }
      if !left { policy := None; }
      report := Report(Action.Remove, !left, changed, failures, {});
    }

    /** What is to be done about the policy, going by its summary. */
    method Want(r: Request, desired: Body) returns (action: Action)
      requires r.days >= 1 && desired == Desired(Content(), r)
      ensures action == Wanted(Content(), r)
    {
      if policy.None? { return Create; }
      action := if Summarise(policy.value.body) == Summarise(desired) then Current else Update;
    }

    /** Writes the policy asked for, or refuses to shorten the one in force. */
    method Write(r: Request, conflicts: set<string>) returns (action: Action)
      requires r.days >= 1 && (conflicts != {} <==> Conflicted(Content(), r.prefix))
      modifies this`policy, this`writes
      ensures Content() == Written(old(Content()), r) && action == ActionFor(old(Content()), r)
    {
      var desired := Policy(r.days, r.prefix, conflicts == {});
      action := Want(r, desired);
      if Shorter(Content(), r, action) && r.confirm != Some(r.days) {
        action := Refused;
      } else if action == Create || action == Update {
        var _ := PutPolicy(desired);
      }
    }

    /** _survey: attaches what no policy manages, when that was asked for. */
    method Survey(r: Request, action: Action) returns (attached: nat, failures: set<string>)
      modifies this`managed, this`hidden
      ensures Content() == Attached(old(Content()), r, action)
    {
      attached, failures := 0, {};
      if r.attach && action != Refused && policy.Some? {
        var unmanaged := Unmanaged(Content(), r.prefix);
        var order := Sequence(unmanaged);
        attached, failures := Each(Add, order, r.fails);
      }
    }

    /** reconcile: everything a start does. */
    method Reconcile(r: Request) returns (report: Report)
      modifies this
      ensures Content() == Reconciled(old(Content()), r)
      ensures r.days >= 1 ==> report.action == ActionFor(old(Content()), r)
                              && report.wouldDelete == WouldDelete(old(Content()), r)
      ensures r.days >= 1 && (Conflicted(old(Content()), r.prefix) || report.action == Refused) ==> !report.ok
      ensures r.days == 0 && report.ok ==> policy.None?
    {
      if r.days == 0 {
        report := TurnOff(r.fails);
        return;
      }
      var ours, wouldDelete := Content().Listed(), WouldDelete(Content(), r);
      var conflicts := FindConflicts(r.prefix);
      var action := Write(r, conflicts);
      var moved, failures := Converge(ours, r.fails);
      var attached, refused := Survey(r, action);
      failures := failures + refused;
      report := Report(action, conflicts == {} && action != Refused && failures == {},
                       moved + attached, failures, wouldDelete);
    }

    static method Sequence(names: set<string>) returns (order: seq<string>)
      ensures Elements(order) == names
    {
      order := [];
      var left := names;
      while left != {}
        invariant left <= names && Elements(order) == names - left
        decreases |left|
      {
        var name :| name in left;
        assert Elements(order + [name]) == Elements(order) + {name};
        order, left := order + [name], left - {name};
      }
    }
  }
}
