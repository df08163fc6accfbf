/** The retention reconciler of libtb.retention: an ISM policy, the indices it
    manages, and what a librarian start does to both. */
module Retention {
  import opened Wrappers
  import Patterns

  // -- policies ------------------------------------------------------------

  /** How old an index gets before it is deleted. */
  datatype Period = Days(days: real) | Forever

  /** The first is no later than the second. */
  predicate NoLater(a: Period, b: Period) {
    b.Forever? || (a.Days? && a.days <= b.days)
  }

  function Sooner(a: Period, b: Period): Period {
    if NoLater(a, b) then a else b
  }

  /** A transition, with its min_index_age in days if it can be read. */
  datatype Transition = Transition(to: string, age: Option<real>)

  datatype State = State(name: string, deletes: bool, transitions: seq<Transition>)

  /** What a policy's description says: the pattern and the days. */
  datatype Description = Description(pattern: string, days: nat)

  datatype Body = Body(description: Description, defaultState: string, states: seq<State>, templates: seq<seq<string>>)

  function IndexPattern(prefix: string): string {
    prefix + "-2*"
  }

  /** The body `policy` writes. */
  function Policy(days: nat, prefix: string, template: bool): Body
    requires days >= 1
  {
    Body(Description(IndexPattern(prefix), days), "hot",
         [State("hot", false, [Transition("delete", Some(days as real))]), State("delete", true, [])],
         if template then [[IndexPattern(prefix)]] else [])
  }

  /** The ages of the transitions straight into a deleting state, in order. */
  function Ages(states: seq<State>, deleting: set<string>): seq<Option<real>> {
    if states == [] then []
    else AgesOf(states[0].transitions, deleting) + Ages(states[1..], deleting)
  }

  function AgesOf(transitions: seq<Transition>, deleting: set<string>): seq<Option<real>> {
    if transitions == [] then []
    else (if transitions[0].to in deleting then [transitions[0].age] else []) + AgesOf(transitions[1..], deleting)
  }

  /** The earliest age, of those before the first that cannot be read. */
  function Earliest(ages: seq<Option<real>>): Period {
    if ages == [] || ages[0].None? then Forever
    else Sooner(Days(ages[0].value), Earliest(ages[1..]))
  }

  function Deleting(states: seq<State>): set<string> {
    set s | s in states && s.deletes :: s.name
  }

  function PeriodOf(body: Body): Period {
    Earliest(Ages(body.states, Deleting(body.states)))
  }

  /** When every age can be read, the period is the earliest of them, and one of them. */
  lemma {:induction false} EarliestIsLeast(ages: seq<Option<real>>)
    requires forall a <- ages :: a.Some?
    ensures forall a <- ages :: NoLater(Earliest(ages), Days(a.value))
    ensures Earliest(ages).Forever? <==> ages == []
    ensures Earliest(ages).Days? ==> Some(Earliest(ages).days) in ages
  {
    if ages != [] {
      assert ages[0] in ages && forall a <- ages[1..] :: a in ages;
      EarliestIsLeast(ages[1..]);
      forall a <- ages ensures NoLater(Earliest(ages), Days(a.value)) {
        assert a == ages[0] || a in ages[1..];
      }
    }
  }

  /** The period read back from a policy is the one it was written with. */
  lemma PeriodOfPolicy(days: nat, prefix: string, template: bool)
    requires days >= 1
    ensures PeriodOf(Policy(days, prefix, template)) == Days(days as real)
  {
    var states := Policy(days, prefix, template).states;
    var deleting := Deleting(states);
    assert deleting == {"delete"} by { assert states[1] in states; }
    assert states[0].transitions[1..] == [] && AgesOf(states[0].transitions, deleting) == [Some(days as real)];
    assert states[1..] == [states[1]] && Ages(states[1..], deleting) == [] + [];
    var ages := [Some(days as real)];
    assert Ages(states, deleting) == ages && ages[1..] == [];
    assert Earliest(ages) == Sooner(Days(days as real), Earliest([]));
  }

  lemma NextAge(transitions: seq<Transition>, deleting: set<string>, later: seq<Option<real>>)
    requires transitions != []
    ensures var rest := AgesOf(transitions[1..], deleting) + later;
            AgesOf(transitions, deleting) + later
            == if transitions[0].to in deleting then [transitions[0].age] + rest else rest
  {
  }

  /** period_days: stops at the first age it cannot read. */
  method PeriodDays(body: Body) returns (period: Period)
    ensures period == PeriodOf(body)
  {
    var deleting := Deleting(body.states);
    period := Forever;
    var states := body.states;
    while states != []
      invariant Sooner(period, Earliest(Ages(states, deleting))) == PeriodOf(body)
      decreases |states|
    {
      var transitions := states[0].transitions;
      while transitions != []
        invariant var ages := AgesOf(transitions, deleting) + Ages(states[1..], deleting);
                  Sooner(period, Earliest(ages)) == PeriodOf(body)
        decreases |transitions|
      {
        var transition := transitions[0];
        NextAge(transitions, deleting, Ages(states[1..], deleting));
        if transition.to in deleting {
          if transition.age.None? {
            return;
          }
          period := Sooner(period, Days(transition.age.value));
        }
        transitions := transitions[1..];
      }
      assert AgesOf([], deleting) + Ages(states[1..], deleting) == Ages(states[1..], deleting);
      states := states[1..];
    }
  }

  /** What `summarise` keeps of a policy: sorted lists, so multisets. */
  datatype Summary = Summary(
    description: Description,
    defaultState: string,
    transitions: multiset<(string, Transition)>,
    deletes: multiset<string>,
    templates: multiset<seq<string>>)

  function Transitions(states: seq<State>): multiset<(string, Transition)> {
    if states == [] then multiset{}
    else multiset(seq(|states[0].transitions|, i requires 0 <= i < |states[0].transitions| =>
                        (states[0].name, states[0].transitions[i])))
         + Transitions(states[1..])
  }

  function Deletes(states: seq<State>): multiset<string> {
    if states == [] then multiset{}
    else (if states[0].deletes then multiset{states[0].name} else multiset{}) + Deletes(states[1..])
  }

  function Summarise(body: Body): Summary {
    Summary(body.description, body.defaultState, Transitions(body.states), Deletes(body.states),
            multiset(body.templates))
  }

  /** Two policies as written summarise alike exactly when they say the same. */
  lemma SummaryTells(d1: nat, p1: string, t1: bool, d2: nat, p2: string, t2: bool)
    requires d1 >= 1 && d2 >= 1
    ensures Summarise(Policy(d1, p1, t1)) == Summarise(Policy(d2, p2, t2)) <==> d1 == d2 && p1 == p2 && t1 == t2
  {
    if Summarise(Policy(d1, p1, t1)) == Summarise(Policy(d2, p2, t2)) {
      assert IndexPattern(p1)[..|IndexPattern(p1)| - 3] == p1;
      assert IndexPattern(p2)[..|IndexPattern(p2)| - 3] == p2;
      assert multiset([[IndexPattern(p1)]]) != multiset([]);
    }
  }

  lemma {:induction false} AgesHas(states: seq<State>, deleting: set<string>, age: Option<real>)
    ensures age in Ages(states, deleting)
            <==> exists state <- states, t <- state.transitions :: t.to in deleting && t.age == age
  {
    if states != [] {
      AgesOfHas(states[0].transitions, deleting, age);
      AgesHas(states[1..], deleting, age);
      assert states[0] in states && forall state <- states :: state == states[0] || state in states[1..];
    }
  }

  lemma {:induction false} AgesOfHas(transitions: seq<Transition>, deleting: set<string>, age: Option<real>)
    ensures age in AgesOf(transitions, deleting) <==> exists t <- transitions :: t.to in deleting && t.age == age
  {
    if transitions != [] {
      AgesOfHas(transitions[1..], deleting, age);
      assert transitions[0] in transitions && forall t <- transitions :: t == transitions[0] || t in transitions[1..];
    }
  }

  lemma {:induction false} TransitionsHas(states: seq<State>, name: string, t: Transition)
    ensures (name, t) in Transitions(states) <==> exists state <- states :: state.name == name && t in state.transitions
  {
    if states != [] {
      TransitionsHas(states[1..], name, t);
      var first := states[0];
      var pairs := seq(|first.transitions|, i requires 0 <= i < |first.transitions| =>
                         (first.name, first.transitions[i]));
      assert Transitions(states) == multiset(pairs) + Transitions(states[1..]);
      if first.name == name && t in first.transitions {
        var i :| 0 <= i < |first.transitions| && first.transitions[i] == t;
        assert pairs[i] == (name, t);
      }
      assert (name, t) in pairs <==> first.name == name && t in first.transitions;
      assert first in states && forall state <- states :: state == first || state in states[1..];
    }
  }

  lemma {:induction false} DeletesHas(states: seq<State>, name: string)
    ensures name in Deletes(states) <==> name in Deleting(states)
  {
    if states != [] {
      DeletesHas(states[1..], name);
      assert states[0] in states && forall state <- states :: state == states[0] || state in states[1..];
    }
  }

  /** Every age at which the policy deletes can be read. */
  predicate Readable(body: Body) {
    forall age <- Ages(body.states, Deleting(body.states)) :: age.Some?
  }

  lemma SameAges(a: Body, b: Body, age: Option<real>)
    requires Summarise(a) == Summarise(b) && age in Ages(a.states, Deleting(a.states))
    ensures age in Ages(b.states, Deleting(b.states))
  {
    AgesHas(a.states, Deleting(a.states), age);
    var state :| state in a.states && exists t <- state.transitions :: t.to in Deleting(a.states) && t.age == age;
    var t :| t in state.transitions && t.to in Deleting(a.states) && t.age == age;
    TransitionsHas(a.states, state.name, t);
    TransitionsHas(b.states, state.name, t);
    DeletesHas(a.states, t.to);
    DeletesHas(b.states, t.to);
    AgesHas(b.states, Deleting(b.states), age);
  }

  /** No difference that matters is lost: policies with the same summary, by
      whatever hand, delete at the same age and go by the same templates. */
  lemma SamePeriod(a: Body, b: Body)
    requires Summarise(a) == Summarise(b) && Readable(a) && Readable(b)
    ensures PeriodOf(a) == PeriodOf(b) && multiset(a.templates) == multiset(b.templates)
  {
    var x, y := Ages(a.states, Deleting(a.states)), Ages(b.states, Deleting(b.states));
    EarliestIsLeast(x);
    EarliestIsLeast(y);
    forall age ensures age in x <==> age in y {
      if age in x { SameAges(a, b, age); }
      if age in y { SameAges(b, a, age); }
    }
    if x != [] { assert x[0] in y; }
    if y != [] { assert y[0] in x; }
  }

  // -- the cluster ---------------------------------------------------------

  const POLICY_ID := "turkeybite-retention"

  datatype Stored = Stored(body: Body, version: nat)

  /** An index a policy manages. ISM runs `copy`, the policy as it was at
      `version`; an entry not initialised yet has no version, and starts on
      the current policy when it does. */
  datatype Entry = Entry(policyId: string, copy: Body, version: Option<nat>)

  /** `hidden` are managed indices ISM does not list yet. */
  datatype Cluster = Cluster(
    policy: Option<Stored>,
    others: map<string, seq<seq<string>>>,
    managed: map<string, Entry>,
    hidden: set<string>,
    created: map<string, real>,
    writes: nat)
  {
    predicate Manages(name: string) {
      name in managed && managed[name].policyId == POLICY_ID
    }

    /** The indices listed as under our policy. */
    function Listed(): set<string> {
      set name | name in managed && name !in hidden && managed[name].policyId == POLICY_ID
    }

    /** How old an index gets before our policy deletes it. */
    function DeletesAt(name: string): Period {
      if !Manages(name) then Forever
      else if managed[name].version.Some? then PeriodOf(managed[name].copy)
      else if policy.Some? then PeriodOf(policy.value.body)
      else Forever
    }

    function Put(body: Body): Cluster {
      this.(policy := Some(Stored(body, writes)), writes := writes + 1)
    }

    /** change_policy: these indices now run the current policy. */
    function MoveToLatest(names: set<string>): Cluster
      requires policy.Some?
    {
      this.(managed := map name | name in managed ::
              if name in names then Entry(POLICY_ID, policy.value.body, Some(policy.value.version)) else managed[name])
    }

    function Detach(names: set<string>): Cluster {
      this.(managed := managed - names, hidden := hidden - names)
    }

    function Attach(names: set<string>, body: Body): Cluster {
      this.(managed := managed + map name | name in names :: Entry(POLICY_ID, body, None))
    }
  }

  datatype Action = Create | Update | Current | Refused | Remove | Off

  /** One librarian start. `fails` are the indices whose change ISM refuses. */
  datatype Request = Request(days: nat, prefix: string, now: real, confirm: Option<nat>, attach: bool,
                             fails: set<string>)

  /** Another policy's template can match one of our daily indices. */
  ghost predicate Conflicts(templates: seq<seq<string>>, prefix: string) {
    exists template <- templates, pattern <- template :: Patterns.Meet(pattern, IndexPattern(prefix))
  }

  ghost predicate Conflicted(c: Cluster, prefix: string) {
    exists id <- c.others :: Conflicts(c.others[id], prefix)
  }

  ghost function Desired(c: Cluster, r: Request): Body
    requires r.days >= 1
  {
    Policy(r.days, r.prefix, !Conflicted(c, r.prefix))
  }

  /** The period in force, which a shorter one must be confirmed against. */
  function Limit(c: Cluster): Period {
    if c.policy.Some? then PeriodOf(c.policy.value.body) else Forever
  }

  function AgeInDays(c: Cluster, now: real, name: string): Option<real> {
    if name in c.created && c.created[name] != 0.0 then Some((now - c.created[name]) / 86400.0) else None
  }

  function WouldDelete(c: Cluster, r: Request): set<string> {
    set name | name in c.Listed() && AgeInDays(c, r.now, name).Some?
               && r.days as real <= AgeInDays(c, r.now, name).value
               && (Limit(c).Forever? || AgeInDays(c, r.now, name).value < Limit(c).days)
  }

  ghost function Wanted(c: Cluster, r: Request): Action
    requires r.days >= 1
  {
    if c.policy.None? then Create
    else if Summarise(c.policy.value.body) == Summarise(Desired(c, r)) then Current
    else Update
  }

  /** Writing what is wanted could delete something sooner. */
  predicate Shorter(c: Cluster, r: Request, wanted: Action) {
    || (wanted == Update && !NoLater(Limit(c), Days(r.days as real)))
    || (wanted == Create && (WouldDelete(c, r) != {} || c.Listed() != {}))
  }

  /** Refused, unless confirmed, rather than shortened. */
  ghost function ActionFor(c: Cluster, r: Request): Action
    requires r.days >= 1
  {
    if Shorter(c, r, Wanted(c, r)) && r.confirm != Some(r.days) then Refused else Wanted(c, r)
  }

  /** The listed indices that run another version than this. */
  function Lagging(c: Cluster, names: set<string>, version: nat): set<string> {
    set name | name in names && name in c.managed && c.managed[name].version.Some?
               && c.managed[name].version.value != version
  }

  function Converged(c: Cluster, names: set<string>, fails: set<string>): Cluster {
    if c.policy.None? then c
    else c.MoveToLatest(Lagging(c, names, c.policy.value.version) - fails)
  }

  predicate Digit(c: char) {
    '0' <= c <= '9'
  }

  /** prefix-YYYY-MM-DD. */
  predicate IsDaily(name: string, prefix: string) {
    var n := |prefix|;
    && |name| == n + 11 && prefix <= name
    && name[n] == '-' && name[n + 5] == '-' && name[n + 8] == '-'
    && forall i | n < i < n + 11 && i != n + 5 && i != n + 8 :: Digit(name[i])
  }

  function Unmanaged(c: Cluster, prefix: string): set<string> {
    set name | name in c.created && IsDaily(name, prefix) && name !in c.managed
  }

  const SETTLE_ROUNDS: nat := 5

  /** Takes the policy off the pending indices and looks again, up to this
      many times. True when some are left under it. */
  function Settled(c: Cluster, pending: set<string>, fails: set<string>, rounds: nat): (Cluster, bool)
    decreases rounds
  {
    if rounds == 0 then (c, true)
    else
      var off := c.Detach(pending - fails);
      if pending * fails != {} then (off, true)
      else
        var seen := off.(hidden := {});
        if seen.Listed() == {} then (seen, false) else Settled(seen, seen.Listed(), fails, rounds - 1)
  }

  function WithoutTemplate(body: Body): Body {
    body.(templates := [])
  }

  function TurnedOff(c: Cluster, fails: set<string>): Cluster {
    if c.policy.None? && c.Listed() == {} then c
    else
      var untemplated := if c.policy.Some? && c.policy.value.body.templates != []
                         then c.Put(WithoutTemplate(c.policy.value.body)) else c;
      var (off, left) := Settled(untemplated, c.Listed(), fails, SETTLE_ROUNDS);
      if left then off else off.(policy := None)
  }

  /** The policy written, if it is to be. */
  ghost function Written(c: Cluster, r: Request): Cluster
    requires r.days >= 1
  {
    if ActionFor(c, r) in {Create, Update} then c.Put(Desired(c, r)) else c
  }

  /** --attach-existing: the daily indices no policy manages, unless the period was refused. */
  function Attached(c: Cluster, r: Request, action: Action): Cluster {
    if r.attach && action != Refused && c.policy.Some?
    then c.Attach(Unmanaged(c, r.prefix) - r.fails, c.policy.value.body)
    else c
  }

  /** The cluster after one start. */
  ghost function Reconciled(c: Cluster, r: Request): Cluster {
    if r.days == 0 then TurnedOff(c, r.fails)
    else Attached(Converged(Written(c, r), c.Listed(), r.fails), r, ActionFor(c, r))
  }

  // -- what every start keeps ----------------------------------------------

  /** A policy of the shape `policy` writes. */
  ghost predicate Ours(body: Body) {
    exists days: nat, prefix, template :: days >= 1 && body == Policy(days, prefix, template)
  }

  /** What an index runs is never longer than the policy says now. */
  ghost predicate EntryOk(c: Cluster, name: string)
    requires name in c.managed
  {
    c.Manages(name) ==> c.policy.Some? && NoLater(c.DeletesAt(name), PeriodOf(c.policy.value.body))
  }

  ghost predicate Inv(c: Cluster) {
    && c.hidden <= c.managed.Keys
    && (c.policy.Some? ==> Ours(c.policy.value.body))
    && (forall name <- c.managed :: EntryOk(c, name))
  }

  /** A cluster that has never had the policy. */
  ghost predicate Untouched(c: Cluster) {
    c.policy.None? && c.hidden == {} && forall name <- c.managed :: !c.Manages(name)
  }

  /** No index is deleted sooner, and none is newly managed. */
  ghost predicate NoSooner(c: Cluster, c': Cluster) {
    && c'.created == c.created
    && (forall name :: c'.Manages(name) ==> c.Manages(name))
    && (forall name :: NoLater(c.DeletesAt(name), c'.DeletesAt(name)))
  }

  /** Writing a policy that deletes no sooner changes nothing for the worse. */
  lemma PutOk(c: Cluster, body: Body)
    requires Inv(c) && Ours(body)
    requires c.policy.Some? ==> NoLater(PeriodOf(c.policy.value.body), PeriodOf(body))
    ensures Inv(c.Put(body)) && NoSooner(c, c.Put(body))
  {
    var c' := c.Put(body);
    forall name <- c'.managed ensures EntryOk(c', name) { assert EntryOk(c, name); }
    forall name ensures NoLater(c.DeletesAt(name), c'.DeletesAt(name)) {
      if c.Manages(name) { assert EntryOk(c, name); }
    }
  }

  lemma ConvergeOk(c: Cluster, names: set<string>, fails: set<string>)
    requires Inv(c) && forall name <- names :: c.Manages(name)
    ensures Inv(Converged(c, names, fails)) && NoSooner(c, Converged(c, names, fails))
  {
    var c' := Converged(c, names, fails);
    forall name <- c'.managed ensures EntryOk(c', name) { assert EntryOk(c, name); }
    forall name ensures NoLater(c.DeletesAt(name), c'.DeletesAt(name)) {
      if c.Manages(name) { assert EntryOk(c, name); }
    }
  }

  lemma DetachOk(c: Cluster, names: set<string>)
    requires Inv(c)
    ensures Inv(c.Detach(names)) && NoSooner(c, c.Detach(names))
  {
    var c' := c.Detach(names);
    forall name <- c'.managed ensures EntryOk(c', name) { assert EntryOk(c, name); }
  }

  lemma RevealOk(c: Cluster)
    requires Inv(c)
    ensures Inv(c.(hidden := {})) && NoSooner(c, c.(hidden := {}))
  {
    forall name <- c.managed ensures EntryOk(c.(hidden := {}), name) { assert EntryOk(c, name); }
  }

  /** Turning off only ever takes indices off the policy; when it says none is left, none is, listed or not. */
  lemma {:induction false} SettleOk(c: Cluster, pending: set<string>, fails: set<string>, rounds: nat)
    requires Inv(c)
    ensures var (c', left) := Settled(c, pending, fails, rounds);
            && Inv(c') && NoSooner(c, c') && c'.policy == c.policy
            && (!left ==> forall name :: !c'.Manages(name))
    decreases rounds
  {
    if rounds != 0 {
      var off := c.Detach(pending - fails);
      DetachOk(c, pending - fails);
      if pending * fails == {} {
        var seen := off.(hidden := {});
        RevealOk(off);
        if seen.Listed() == {} {
          forall name ensures !seen.Manages(name) {
            assert name !in seen.Listed();
          }
        } else {
          SettleOk(seen, seen.Listed(), fails, rounds - 1);
        }
      }
    }
  }

  lemma UntemplatedOk(body: Body)
    requires Ours(body)
    ensures Ours(WithoutTemplate(body)) && PeriodOf(WithoutTemplate(body)) == PeriodOf(body)
  {
    var days: nat, prefix, template :| days >= 1 && body == Policy(days, prefix, template);
    assert WithoutTemplate(body) == Policy(days, prefix, false);
  }

  lemma TurnOffOk(c: Cluster, fails: set<string>)
    requires Inv(c)
    ensures Inv(TurnedOff(c, fails)) && NoSooner(c, TurnedOff(c, fails))
  {
    if c.policy.Some? || c.Listed() != {} {
      var untemplated := c;
      if c.policy.Some? && c.policy.value.body.templates != [] {
        UntemplatedOk(c.policy.value.body);
        untemplated := c.Put(WithoutTemplate(c.policy.value.body));
        PutOk(c, WithoutTemplate(c.policy.value.body));
      }
      SettleOk(untemplated, c.Listed(), fails, SETTLE_ROUNDS);
      var (off, left) := Settled(untemplated, c.Listed(), fails, SETTLE_ROUNDS);
      if !left {
        var c' := off.(policy := None);
        forall name <- c'.managed ensures EntryOk(c', name) { assert !off.Manages(name); }
      }
    }
  }

  lemma DesiredOk(c: Cluster, r: Request)
    requires r.days >= 1
    ensures Ours(Desired(c, r)) && PeriodOf(Desired(c, r)) == Days(r.days as real)
  {
    PeriodOfPolicy(r.days, r.prefix, !Conflicted(c, r.prefix));
  }

  lemma WriteOk(c: Cluster, r: Request)
    requires Inv(c) && r.days >= 1 && r.confirm != Some(r.days)
    ensures Inv(Written(c, r)) && NoSooner(c, Written(c, r))
  {
    if ActionFor(c, r) in {Create, Update} {
      DesiredOk(c, r);
      PutOk(c, Desired(c, r));
    }
  }

  /** One start, with neither --confirm-days for its days nor
      --attach-existing, deletes nothing sooner and manages nothing new. */
  lemma StartOk(c: Cluster, r: Request)
    requires Inv(c) && r.confirm != Some(r.days) && !r.attach
    ensures Inv(Reconciled(c, r)) && NoSooner(c, Reconciled(c, r))
  {
    if r.days == 0 {
      TurnOffOk(c, r.fails);
    } else {
      WriteOk(c, r);
      ConvergeOk(Written(c, r), c.Listed(), r.fails);
    }
  }

  // -- any history ---------------------------------------------------------

  datatype Event =
    | Start(r: Request)
    | Made(name: string, at: real, under: Option<string>, copy: Body, listed: bool)
    | Initialised(name: string)
    | Revealed
    | Deleted(name: string)
    | OthersSet(others: map<string, seq<seq<string>>>)

  /** A new index is put under our policy only if the policy has a template that matches it. */
  predicate Enabled(c: Cluster, e: Event) {
    match e
    case Made(name, at, under, copy, listed) =>
      && name !in c.created && name !in c.managed
      && (under == Some(POLICY_ID) ==>
            c.policy.Some?
            && exists template <- c.policy.value.body.templates, p <- template :: Patterns.Matches(p, name))
    case Initialised(name) => c.Manages(name) && c.managed[name].version.None? && c.policy.Some?
    case _ => true
  }

  ghost function Next(c: Cluster, e: Event): Cluster
    requires Enabled(c, e)
  {
    match e
    case Start(r) => Reconciled(c, r)
    case Made(name, at, under, copy, listed) =>
      var made := c.(created := c.created[name := at]);
      if under.None? then made
      else made.(managed := c.managed[name := Entry(under.value, copy, None)],
                 hidden := if listed then c.hidden else c.hidden + {name})
    case Initialised(name) =>
      c.(managed := c.managed[name := Entry(POLICY_ID, c.policy.value.body, Some(c.policy.value.version))])
    case Revealed => c.(hidden := {})
    case Deleted(name) => c.(created := c.created - {name}, managed := c.managed - {name}, hidden := c.hidden - {name})
    case OthersSet(others) => c.(others := others)
  }

  ghost predicate CanRun(c: Cluster, events: seq<Event>)
    decreases |events|
  {
    events == [] || (Enabled(c, events[0]) && CanRun(Next(c, events[0]), events[1..]))
  }

  ghost function Run(c: Cluster, events: seq<Event>): Cluster
    requires CanRun(c, events)
    decreases |events|
  {
    if events == [] then c else Run(Next(c, events[0]), events[1..])
  }

  /** Nobody confirms a period or attaches existing indices. */
  ghost predicate Unattended(events: seq<Event>) {
    forall e <- events :: e.Start? ==> e.r.confirm != Some(e.r.days) && !e.r.attach
  }

  /** What comes to the cluster between starts keeps it, and brings no deletion forward. */
  lemma BetweenOk(c: Cluster, e: Event)
    requires Inv(c) && Enabled(c, e) && !e.Start?
    ensures Inv(Next(c, e))
    ensures forall name <- c.created | e != Deleted(name) ::
              && name in Next(c, e).created
              && (Next(c, e).Manages(name) ==> c.Manages(name))
              && NoLater(c.DeletesAt(name), Next(c, e).DeletesAt(name))
  {
    forall name <- Next(c, e).managed ensures EntryOk(Next(c, e), name) {
      if name in c.managed { assert EntryOk(c, name); }
    }
  }

  lemma StepOk(c: Cluster, e: Event)
    requires Inv(c) && Enabled(c, e) && Unattended([e])
    ensures Inv(Next(c, e))
    ensures forall name <- c.created | e != Deleted(name) ::
              && name in Next(c, e).created
              && (Next(c, e).Manages(name) ==> c.Manages(name))
              && NoLater(c.DeletesAt(name), Next(c, e).DeletesAt(name))
  {
    assert e in [e];
    if e.Start? { StartOk(c, e.r); } else { BetweenOk(c, e); }
  }

  lemma {:induction false} HistoryOk(c: Cluster, events: seq<Event>)
    requires Inv(c) && CanRun(c, events) && Unattended(events)
    ensures Inv(Run(c, events))
    ensures forall name <- c.created | Deleted(name) !in events ::
              && (Run(c, events).Manages(name) ==> c.Manages(name))
              && NoLater(c.DeletesAt(name), Run(c, events).DeletesAt(name))
    decreases |events|
  {
    if events != [] {
      var e, rest := events[0], events[1..];
      assert events == [e] + rest;
      StepOk(c, e);
      HistoryOk(Next(c, e), rest);
    }
  }

  /** From a cluster that never had the policy, whatever days the starts were
      given, whatever moves failed, and whatever indices came in between: no
      existing index is ever deleted sooner than it would have been, and none
      that was not under the policy is put under it. */
  lemma NeverSooner(c: Cluster, before: seq<Event>, after: seq<Event>, name: string)
    requires Untouched(c) && CanRun(c, before) && CanRun(Run(c, before), after)
    requires Unattended(before) && Unattended(after)
    requires name in Run(c, before).created && Deleted(name) !in after
    ensures var mid, end := Run(c, before), Run(Run(c, before), after);
            && NoLater(mid.DeletesAt(name), end.DeletesAt(name))
            && (!mid.Manages(name) ==> !end.Manages(name))
            && (mid.policy.None? ==> !end.Manages(name))
  {
    HistoryOk(c, before);
    HistoryOk(Run(c, before), after);
    if name in Run(c, before).managed { assert EntryOk(Run(c, before), name); }
  }

  lemma PolicyWritten(c: Cluster, r: Request)
    requires r.days >= 1
    ensures Reconciled(c, r).policy == Written(c, r).policy
  {
  }

  /** What a start makes of the policy: the days asked for, unless they are
      shorter than the policy in force and were not confirmed. */
  lemma PolicyAfterStart(c: Cluster, r: Request)
    requires Inv(c) && r.days >= 1
    ensures var policy := Reconciled(c, r).policy;
            if c.policy.Some? && !NoLater(Limit(c), Days(r.days as real)) && r.confirm != Some(r.days)
            then policy == c.policy
            else policy.Some? && PeriodOf(policy.value.body) == Days(r.days as real)
                 && Summarise(policy.value.body) == Summarise(Desired(c, r))
  {
    PolicyWritten(c, r);
    DesiredOk(c, r);
    if c.policy.None? {
      NothingListed(c);
      assert WouldDelete(c, r) == {};
    } else if Wanted(c, r) == Current {
      SameSummarySamePeriod(c, r);
    }
  }

  lemma NothingListed(c: Cluster)
    requires Inv(c) && c.policy.None?
    ensures c.Listed() == {}
  {
    forall name ensures name !in c.Listed() {
      if name in c.managed { assert EntryOk(c, name); }
    }
  }

  lemma SameSummarySamePeriod(c: Cluster, r: Request)
    requires Inv(c) && c.policy.Some? && r.days >= 1
    requires Wanted(c, r) == Current
    ensures Limit(c) == Days(r.days as real)
  {
    var days: nat, prefix, template :| days >= 1 && c.policy.value.body == Policy(days, prefix, template);
    PeriodOfPolicy(days, prefix, template);
    SummaryTells(days, prefix, template, r.days, r.prefix, !Conflicted(c, r.prefix));
  }

  // -- what a start brings about -------------------------------------------

  /** Versions are handed out once: an index's is older than the next to be
      written, and one that has the policy's version runs its very body. */
  ghost predicate VersionOk(c: Cluster, name: string)
    requires name in c.managed
  {
    c.managed[name].version.Some? ==>
      && c.managed[name].version.value < c.writes
      && (c.policy.Some? && c.managed[name].version.value == c.policy.value.version ==>
            c.managed[name].copy == c.policy.value.body)
  }

  ghost predicate Versioned(c: Cluster) {
    && (c.policy.Some? ==> c.policy.value.version < c.writes)
    && forall name <- c.managed | c.Manages(name) :: VersionOk(c, name)
  }

  lemma PutVersions(c: Cluster, body: Body)
    requires Versioned(c)
    ensures Versioned(c.Put(body))
  {
    forall name <- c.managed | c.Manages(name) ensures VersionOk(c.Put(body), name) { assert VersionOk(c, name); }
  }

  lemma MoveVersions(c: Cluster, names: set<string>)
    requires Versioned(c) && c.policy.Some?
    ensures Versioned(c.MoveToLatest(names))
  {
    var c' := c.MoveToLatest(names);
    forall name <- c'.managed | c'.Manages(name) ensures VersionOk(c', name) {
      if name !in names { assert VersionOk(c, name); }
    }
  }

  lemma {:induction false} SettleVersions(c: Cluster, pending: set<string>, fails: set<string>, rounds: nat)
    requires Versioned(c)
    ensures Versioned(Settled(c, pending, fails, rounds).0)
    decreases rounds
  {
    if rounds != 0 {
      var seen := c.Detach(pending - fails).(hidden := {});
      forall name <- seen.managed | seen.Manages(name) ensures VersionOk(seen, name) { assert VersionOk(c, name); }
      if pending * fails == {} && seen.Listed() != {} { SettleVersions(seen, seen.Listed(), fails, rounds - 1); }
    }
  }

  lemma TurnOffVersions(c: Cluster, fails: set<string>)
    requires Versioned(c)
    ensures Versioned(TurnedOff(c, fails))
  {
    if c.policy.Some? && c.policy.value.body.templates != [] {
      PutVersions(c, WithoutTemplate(c.policy.value.body));
      SettleVersions(c.Put(WithoutTemplate(c.policy.value.body)), c.Listed(), fails, SETTLE_ROUNDS);
    } else {
      SettleVersions(c, c.Listed(), fails, SETTLE_ROUNDS);
    }
  }

  lemma WriteVersions(c: Cluster, r: Request)
    requires Versioned(c) && r.days >= 1
    ensures Versioned(Written(c, r))
  {
    if ActionFor(c, r) in {Create, Update} { PutVersions(c, Desired(c, r)); }
  }

  lemma ConvergeVersions(c: Cluster, names: set<string>, fails: set<string>)
    requires Versioned(c)
    ensures Versioned(Converged(c, names, fails))
  {
    if c.policy.Some? { MoveVersions(c, Lagging(c, names, c.policy.value.version) - fails); }
  }

  lemma AttachVersions(c: Cluster, r: Request, action: Action)
    requires Versioned(c)
    ensures Versioned(Attached(c, r, action))
  {
    var c' := Attached(c, r, action);
    forall name <- c'.managed | c'.Manages(name) ensures VersionOk(c', name) {
      if name in c.managed { assert c.Manages(name) ==> VersionOk(c, name); }
    }
  }

  lemma StartVersions(c: Cluster, r: Request)
    requires Versioned(c)
    ensures Versioned(Reconciled(c, r))
  {
    if r.days == 0 {
      TurnOffVersions(c, r.fails);
    } else {
      WriteVersions(c, r);
      ConvergeVersions(Written(c, r), c.Listed(), r.fails);
      AttachVersions(Converged(Written(c, r), c.Listed(), r.fails), r, ActionFor(c, r));
    }
  }

  lemma {:induction false} RunVersions(c: Cluster, events: seq<Event>)
    requires Versioned(c) && CanRun(c, events)
    ensures Versioned(Run(c, events))
    decreases |events|
  {
    if events != [] {
      var next := Next(c, events[0]);
      if events[0].Start? {
        StartVersions(c, events[0].r);
      } else {
        forall name <- next.managed | next.Manages(name) ensures VersionOk(next, name) {
          if name in c.managed && c.Manages(name) { assert VersionOk(c, name); }
        }
      }
      RunVersions(next, events[1..]);
    }
  }

  lemma ConvergesTo(c: Cluster, names: set<string>, fails: set<string>, name: string)
    requires Versioned(c) && c.policy.Some? && c.Manages(name) && name in names && name !in fails
    ensures var c' := Converged(c, names, fails);
            c'.Manages(name) && c'.DeletesAt(name) == PeriodOf(c.policy.value.body)
  {
    assert VersionOk(c, name);
  }

  lemma AttachesOthers(c: Cluster, r: Request, action: Action, name: string)
    requires name in c.managed
    ensures var c' := Attached(c, r, action);
            c'.policy == c.policy && name in c'.managed && c'.managed[name] == c.managed[name]
  {
  }

  /** In any run of starts, failures, new indices and confirmed periods: a start
      that leaves a policy in force leaves every index that was listed under
      it, and whose change ISM did not refuse, to be deleted when it says. */
  lemma CaughtUp(c: Cluster, events: seq<Event>, r: Request, name: string)
    requires Untouched(c) && CanRun(c, events) && r.days >= 1
    requires var now := Run(c, events); now.Manages(name) && name !in now.hidden && name !in r.fails
    ensures var end := Reconciled(Run(c, events), r);
            end.policy.Some? ==> end.Manages(name) && end.DeletesAt(name) == PeriodOf(end.policy.value.body)
  {
    RunVersions(c, events);
    var now := Run(c, events);
    assert name in now.Listed();
    var w := Written(now, r);
    WriteVersions(now, r);
    if w.policy.Some? {
      ConvergesTo(w, now.Listed(), r.fails, name);
      AttachesOthers(Converged(w, now.Listed(), r.fails), r, ActionFor(now, r), name);
    }
  }

  /** It touches no other: what another policy manages, ISM does not list yet
      or refuses to change is as it was, and one of ours goes on by its own copy. */
  lemma OthersUntouched(c: Cluster, r: Request, name: string)
    requires r.days >= 1 && name in c.managed && (!c.Manages(name) || name in c.hidden || name in r.fails)
    ensures name in Reconciled(c, r).managed && Reconciled(c, r).managed[name] == c.managed[name]
    ensures c.Manages(name) && c.managed[name].version.Some? ==>
              Reconciled(c, r).DeletesAt(name) == PeriodOf(c.managed[name].copy)
  {
    AttachesOthers(Converged(Written(c, r), c.Listed(), r.fails), r, ActionFor(c, r), name);
  }

  /** Indices that run a copy of a policy deleted since are left alone until their period is confirmed. */
  lemma OrphansKept(c: Cluster, r: Request)
    requires c.policy.None? && c.Listed() != {} && r.days >= 1 && r.confirm != Some(r.days)
    ensures Reconciled(c, r) == c && ActionFor(c, r) == Refused
  {
  }

  /** A confirmed period is written however short it is. */
  lemma ConfirmedIsWritten(c: Cluster, r: Request)
    requires r.days >= 1 && r.confirm == Some(r.days) && (c.policy.Some? ==> Ours(c.policy.value.body))
    ensures var policy := Reconciled(c, r).policy;
            policy.Some? && PeriodOf(policy.value.body) == Days(r.days as real)
  {
    PolicyWritten(c, r);
    DesiredOk(c, r);
    if c.policy.Some? && Wanted(c, r) == Current { SummaryPeriod(c.policy.value.body, r, Desired(c, r)); }
  }

  lemma SummaryPeriod(body: Body, r: Request, desired: Body)
    requires Ours(body) && Ours(desired) && Summarise(body) == Summarise(desired)
    ensures PeriodOf(body) == PeriodOf(desired)
  {
    var d1: nat, p1, t1 :| d1 >= 1 && body == Policy(d1, p1, t1);
    var d2: nat, p2, t2 :| d2 >= 1 && desired == Policy(d2, p2, t2);
    SummaryTells(d1, p1, t1, d2, p2, t2);
  }

  // -- turning retention off -----------------------------------------------

  lemma DetachedNone(c: Cluster)
    requires c.hidden == {}
    ensures c.Detach(c.Listed()).Listed() == {} && c.Detach(c.Listed()).hidden == {}
    ensures forall name :: !c.Detach(c.Listed()).Manages(name)
  {
    forall name ensures !c.Detach(c.Listed()).Manages(name) {
      if c.Manages(name) { assert name in c.Listed(); }
    }
  }

  /** Two looks are enough: what the first did not list is listed by the second. */
  lemma SettlesAll(c: Cluster)
    ensures var (c', left) := Settled(c, c.Listed(), {}, SETTLE_ROUNDS); !left && forall name :: !c'.Manages(name)
  {
    var seen := c.Detach(c.Listed() - {}).(hidden := {});
    if seen.Listed() == {} {
      forall name ensures !seen.Manages(name) { assert name !in seen.Listed(); }
    } else {
      DetachedNone(seen);
      assert seen.Listed() - {} == seen.Listed();
      var off := seen.Detach(seen.Listed());
      assert off.(hidden := {}) == off;
      assert Settled(seen, seen.Listed(), {}, SETTLE_ROUNDS - 1) == (off, false);
    }
  }

  /** When ISM refuses nothing, no index is left under the policy, listed or
      not at the start, and the policy is gone. */
  lemma TurnsOff(c: Cluster)
    requires c.policy.Some? || c.Listed() != {}
    ensures var end := TurnedOff(c, {}); end.policy.None? && forall name :: !end.Manages(name)
  {
    var untemplated := if c.policy.Some? && c.policy.value.body.templates != []
                       then c.Put(WithoutTemplate(c.policy.value.body)) else c;
    assert untemplated.Listed() == c.Listed();
    SettlesAll(untemplated);
  }

  /** When it refuses one, the policy stays for it, with no template to take in another. */
  lemma TurnOffWaits(c: Cluster, fails: set<string>, name: string)
    requires c.policy.Some? && name in c.Listed() && name in fails
    ensures var end := TurnedOff(c, fails);
            && end.Manages(name) && end.managed[name] == c.managed[name]
            && end.policy.Some? && end.policy.value.body == WithoutTemplate(c.policy.value.body)
  {
    assert name in c.Listed() * fails;
    if c.policy.value.body.templates == [] { assert WithoutTemplate(c.policy.value.body) == c.policy.value.body; }
  }

  // -- new indices -----------------------------------------------------------

  lemma {:induction false} AnyMatches(name: string)
    ensures Patterns.Matches("*", name)
  {
    if name != "" { AnyMatches(name[1..]); }
  }

  lemma {:induction false} PrefixMatches(prefix: string, pattern: string, name: string)
    requires Patterns.Matches(pattern, name)
    ensures Patterns.Matches(prefix + pattern, prefix + name)
  {
    if prefix == "" {
      assert prefix + pattern == pattern && prefix + name == name;
    } else {
      PrefixMatches(prefix[1..], pattern, name);
      assert (prefix + pattern)[1..] == prefix[1..] + pattern && (prefix + name)[1..] == prefix[1..] + name;
      if prefix[0] == '*' { assert Patterns.Matches(prefix + pattern, (prefix + name)[1..]); }
    }
  }

  /** While another policy's template can match a daily index, ours has none;
      otherwise it has one that matches every daily index of this millennium. */
  lemma NewIndices(c: Cluster, r: Request, name: string)
    requires r.days >= 1
    ensures Conflicted(c, r.prefix) ==> Desired(c, r).templates == []
    ensures !Conflicted(c, r.prefix) && IsDaily(name, r.prefix) && name[|r.prefix| + 1] == '2' ==>
              exists template <- Desired(c, r).templates, p <- template :: Patterns.Matches(p, name)
  {
    if !Conflicted(c, r.prefix) && IsDaily(name, r.prefix) && name[|r.prefix| + 1] == '2' {
      var n, pattern := |r.prefix|, IndexPattern(r.prefix);
      var rest := name[n..];
      assert "-2*"[1..] == "2*" && "2*"[1..] == "*";
      AnyMatches(rest[2..]);
      assert rest[1..][1..] == rest[2..];
      assert Patterns.Matches("2*", rest[1..]);
      assert Patterns.Matches("-2*", rest);
      PrefixMatches(r.prefix, "-2*", rest);
      assert name == r.prefix + rest;
      var template := [pattern];
      assert template in Desired(c, r).templates && pattern in template;
    }
  }

  // -- what a start says and takes in ----------------------------------------

  /** What a period is said to delete at once: the listed indices that are old
      enough for it, and not for the one in force. */
  lemma WouldDeleteIs(c: Cluster, r: Request, name: string)
    ensures name in WouldDelete(c, r)
            <==> && name in c.Listed() && name in c.created && c.created[name] != 0.0
                 && r.now - c.created[name] >= r.days as real * 86400.0
                 && (Limit(c).Days? ==> r.now - c.created[name] < Limit(c).days * 86400.0)
  {
  }

  /** A policy that is as it should be is not written again, and no index is moved that has caught up. */
  lemma NothingRewritten(c: Cluster, r: Request)
    requires r.days >= 1 && c.policy.Some? && c.policy.value.body == Desired(c, r)
    ensures Reconciled(c, r).policy == c.policy && ActionFor(c, r) == Current
    ensures (!r.attach
             && forall name <- c.Listed() :: c.managed[name].version in {None, Some(c.policy.value.version)}) ==>
              Reconciled(c, r) == c
  {
    if forall name <- c.Listed() :: c.managed[name].version in {None, Some(c.policy.value.version)} {
      assert Lagging(c, c.Listed(), c.policy.value.version) == {};
      assert c.MoveToLatest({} - r.fails).managed == c.managed;
    }
  }

  /** Turning off what is not on changes nothing. */
  lemma NothingToTurnOff(c: Cluster, fails: set<string>)
    requires c.policy.None? && c.Listed() == {}
    ensures TurnedOff(c, fails) == c
  {
  }

  predicate AllDigits(text: string) {
    forall c <- text :: c in "0123456789"
  }

  predicate Dated(name: string, prefix: string, year: string, month: string, day: string) {
    && |year| == 4 && |month| == 2 && |day| == 2 && AllDigits(year) && AllDigits(month) && AllDigits(day)
    && name == prefix + "-" + year + "-" + month + "-" + day
  }

  lemma DailyIs(name: string, prefix: string)
    ensures IsDaily(name, prefix) <==> exists year, month, day :: Dated(name, prefix, year, month, day)
  {
    if IsDaily(name, prefix) {
      var n := |prefix|;
      var year, month, day := name[n + 1..n + 5], name[n + 6..n + 8], name[n + 9..];
      assert name == prefix + "-" + year + "-" + month + "-" + day;
      assert Dated(name, prefix, year, month, day);
    }
    forall year, month, day | Dated(name, prefix, year, month, day) ensures IsDaily(name, prefix) {
      DatedIsDaily(name, prefix, year, month, day);
    }
  }

  lemma DatedIsDaily(name: string, prefix: string, year: string, month: string, day: string)
    requires Dated(name, prefix, year, month, day)
    ensures IsDaily(name, prefix)
  {
    var n := |prefix|;
    assert name[n + 1..n + 5] == year && name[n + 6..n + 8] == month && name[n + 9..] == day;
    forall i | n < i < n + 11 && i != n + 5 && i != n + 8 ensures Digit(name[i]) {
      if i < n + 5 { assert name[i] == year[i - n - 1] && name[i] in year; }
      else if i < n + 8 { assert name[i] == month[i - n - 6] && name[i] in month; }
      else { assert name[i] == day[i - n - 9] && name[i] in day; }
    }
  }

  /** Asked to, a start takes in exactly the indices named for a day that nothing manages yet, but those ISM refuses. */
  lemma Attaches(c: Cluster, r: Request, name: string)
    requires r.days >= 1 && name !in c.managed && ActionFor(c, r) != Refused
    ensures Reconciled(c, r).Manages(name)
            <==> r.attach && name in c.created && name !in r.fails && IsDaily(name, r.prefix)
  {
    PolicyWritten(c, r);
  }
}
