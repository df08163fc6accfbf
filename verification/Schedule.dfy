/** Running rules: which windows a run evaluates, the lease that makes recorded
    runs take turns, and the mark that says how far a rule has looked. */
module Schedule {
  import opened Wrappers

  /** Microseconds. */
  type Time = int

  const HOUR: Time := 3_600_000_000
  const MINUTE: Time := 60_000_000
  const CATCH_UP: Time := 6 * HOUR
  const CATCH_UP_STEPS := 12
  const RUN_LEASE: Time := 15 * MINUTE

  /** From a moment on and before another, as OpenSearch is asked for it. */
  type Span = (Time, Time)

  predicate Within(t: Time, span: Span) {
    span.0 <= t < span.1
  }

  predicate InSome(t: Time, spans: seq<Span>) {
    exists span <- spans :: Within(t, span)
  }

  // -- what a run looks at ------------------------------------------------------

  /** The window ends to evaluate, oldest first, and the span given up before them. */
  datatype Plan = Plan(ends: seq<Time>, missed: Option<Span>)

  /** Windows of one length one after another from a moment on, by their ends. */
  predicate Tiles(ends: seq<Time>, start: Time, step: nat) {
    && (ends != [] ==> ends[0] == start + step)
    && forall i | 0 < i < |ends| :: ends[i] == ends[i - 1] + step
  }

  /** What the plan for a rule without a schedule comes to. */
  predicate Planned(plan: Plan, mark: Option<Time>, end: Time, step: nat) {
    if mark.Some? && mark.value >= end then plan == Plan([], None)
    else if mark.None? || end - mark.value <= step then plan == Plan([end], None)
    else
      && 0 < |plan.ends| <= CATCH_UP_STEPS
      && var start := plan.ends[0] - step;
         && Tiles(plan.ends, start, step) && start >= mark.value
         && plan.missed == (if start > mark.value then Some((mark.value, start)) else None)
         && 0 <= end - plan.ends[|plan.ends| - 1] < step
         && var reach := Max(mark.value, end - Max(CATCH_UP, step));
            start >= reach && (start == reach || |plan.ends| == CATCH_UP_STEPS)
  }

  /** Whole windows from a moment on, as long as they have ended. */
  method TileFrom(last: Time, end: Time, step: nat) returns (candidates: seq<Time>)
    requires step > 0 && last + step <= end
    ensures candidates != [] && Tiles(candidates, last, step)
    ensures 0 <= end - candidates[|candidates| - 1] < step
  {
    candidates := [last + step];
    var moment := last + step + step;
    while moment <= end
      invariant candidates != [] && Tiles(candidates, last, step)
      invariant candidates[|candidates| - 1] == moment - step <= end
      decreases end - moment
    {
      candidates := candidates + [moment];
      moment := moment + step;
    }
  }

  /** The windows kept when there are more than one run takes on. */
  method LastFew(all: seq<Time>, start: Time, step: nat) returns (kept: seq<Time>)
    requires all != [] && Tiles(all, start, step)
    ensures 0 < |kept| <= CATCH_UP_STEPS && kept[|kept| - 1] == all[|all| - 1]
    ensures Tiles(kept, kept[0] - step, step) && kept[0] - step >= start
    ensures kept[0] - step == start || |kept| == CATCH_UP_STEPS
  {
    kept := all;
    if |all| > CATCH_UP_STEPS {
      LastTiles(all, start, step, |all| - CATCH_UP_STEPS);
      kept := all[|all| - CATCH_UP_STEPS..];
    }
  }

  /** Which windows to evaluate this run, for a rule that is always active. */
  method PlanWindows(mark: Option<Time>, end: Time, step: nat) returns (plan: Plan)
    requires step > 0
    ensures Planned(plan, mark, end, step)
  {
    if mark.Some? && mark.value >= end { return Plan([], None); }
    if mark.None? || end - mark.value <= step { return Plan([end], None); }
    var origin := mark.value;
    var last := Max(origin, end - Max(CATCH_UP, step));
    var candidates := TileFrom(last, end, step);
    candidates := LastFew(candidates, last, step);
    var missed := if candidates[0] - step - origin > 0 then Some((origin, candidates[0] - step)) else None;
    plan := Plan(candidates, missed);
  }

  lemma LastTiles(ends: seq<Time>, start: Time, step: nat, k: nat)
    requires Tiles(ends, start, step) && k < |ends|
    ensures Tiles(ends[k..], ends[k] - step, step) && ends[k] - step >= start
  {
    if k > 0 { Further(ends, start, step, 0, k); }
    assert forall i | 0 <= i < |ends| - k :: ends[k..][i] == ends[k + i];
  }

  /** The moments a run looked at: its windows, first to last, are one span. */
  function Looked(plan: Plan, k: nat, step: nat): Span
    requires 0 < k <= |plan.ends|
  {
    (plan.ends[0] - step, plan.ends[k - 1])
  }

  predicate InWindow(ends: seq<Time>, step: nat, i: int, t: Time)
    requires 0 <= i < |ends|
  {
    Within(t, (ends[i] - step, ends[i]))
  }

  /** No moment between two windows of a run is left out, and none lies in two. */
  lemma TilesMeet(ends: seq<Time>, start: Time, step: nat, t: Time)
    requires step > 0 && Tiles(ends, start, step) && ends != [] && start <= t < ends[|ends| - 1]
    ensures exists i :: 0 <= i < |ends| && InWindow(ends, step, i, t)
    ensures forall i, j | 0 <= i < |ends| && 0 <= j < |ends| ::
      InWindow(ends, step, i, t) && InWindow(ends, step, j, t) ==> i == j
  {
    var i := TileOf(ends, start, step, t, |ends| - 1);
    assert InWindow(ends, step, i, t);
    forall a, b | 0 <= a < |ends| && 0 <= b < |ends| && InWindow(ends, step, a, t) && InWindow(ends, step, b, t)
      ensures a == b
    {
      if a < b { Further(ends, start, step, a, b); }
      if b < a { Further(ends, start, step, b, a); }
    }
  }

  lemma {:induction false} TileOf(ends: seq<Time>, start: Time, step: nat, t: Time, n: nat) returns (i: nat)
    requires Tiles(ends, start, step) && n < |ends| && start <= t < ends[n]
    ensures i <= n && ends[i] - step <= t < ends[i]
  {
    i := n;
    if t < ends[n] - step { i := TileOf(ends, start, step, t, n - 1); }
  }

  lemma {:induction false} Further(ends: seq<Time>, start: Time, step: nat, a: nat, b: nat)
    requires Tiles(ends, start, step) && a < b < |ends|
    ensures ends[b] - step >= ends[a]
  {
    if a < b - 1 { Further(ends, start, step, a, b - 1); }
  }

  /** What a plan comes to, told by moments: nothing once the rule got to the
      end, one window where it has not run before or lags by one at most, and
      otherwise each moment since the mark in one window, in the span missed, or
      too late for a whole window; at most twelve windows, the last within a
      window's length of the end. A moment is missed only if it lies more than six
      hours, and more than a window, before the end, or before twelve windows. */
  lemma PlanMeans(plan: Plan, mark: Option<Time>, end: Time, step: nat, t: Time)
    requires step > 0 && Planned(plan, mark, end, step)
    ensures mark.Some? && mark.value >= end <==> plan.ends == []
    ensures mark.None? || (end - step <= mark.value < end) ==> plan == Plan([end], None)
    ensures |plan.ends| <= 12 && (plan.ends != [] ==> 0 <= end - plan.ends[|plan.ends| - 1] < step)
    ensures mark.Some? && mark.value < end - step ==>
              && (mark.value <= t < end ==>
                    || (exists i | 0 <= i < |plan.ends| :: InWindow(plan.ends, step, i, t))
                    || (plan.missed.Some? && Within(t, plan.missed.value))
                    || t >= plan.ends[|plan.ends| - 1])
              && (forall i | 0 <= i < |plan.ends| :: plan.ends[i] - step >= mark.value)
    ensures plan.missed.Some? && Within(t, plan.missed.value) ==>
              && mark.Some? && t >= mark.value
              && (|plan.ends| == 12 || (t < end - 21_600_000_000 && t < end - step))
              && forall i | 0 <= i < |plan.ends| :: !InWindow(plan.ends, step, i, t)
  {
    if plan.ends != [] && mark.Some? && mark.value < end - step {
      var start := plan.ends[0] - step;
      forall i | 0 <= i < |plan.ends| ensures plan.ends[i] - step >= start {
        if i > 0 { Further(plan.ends, start, step, 0, i); }
      }
      if start <= t < plan.ends[|plan.ends| - 1] { TilesMeet(plan.ends, start, step, t); }
    }
  }

  // -- what a run records ---------------------------------------------------------

  /** The part of a rule runs share. */
  datatype Shared = Shared(mark: Option<Time>, running: Option<Time>)

  predicate Free(running: Option<Time>, now: Time) {
    running.None? || running.value < now
  }

  /** The rule after a run with this claim has written the windows it evaluated. */
  function Recorded(rule: Shared, lease: Time, ends: seq<Time>, end: Time, none: bool): Shared {
    if rule.running != Some(lease) then rule
    else Shared(if ends != [] then MarkAfter(rule.mark, ends)
                else if none then Some(if rule.mark.None? then end else Max(rule.mark.value, end))
                else rule.mark, None)
  }

  /** The mark only ever moves on. */
  function MarkAfter(mark: Option<Time>, ends: seq<Time>): (m: Option<Time>)
    ensures ends != [] ==> m.Some? && m.value >= ends[|ends| - 1] && (mark.Some? ==> m.value >= mark.value)
  {
    if ends == [] then mark
    else
      var m := MarkAfter(mark, ends[..|ends| - 1]);
      var last := ends[|ends| - 1];
      Some(if m.None? then last else Max(m.value, last))
  }

  lemma {:induction false} MarkIsLast(mark: Option<Time>, ends: seq<Time>)
    requires ends != [] && (forall i, j | 0 <= i < j < |ends| :: ends[i] <= ends[j])
    requires mark.Some? ==> mark.value <= ends[0]
    ensures MarkAfter(mark, ends) == Some(ends[|ends| - 1])
  {
    if |ends| > 1 { MarkIsLast(mark, ends[..|ends| - 1]); }
    else { assert ends[..0] == []; }
  }

  lemma {:induction false} MarkIsAnEnd(mark: Option<Time>, ends: seq<Time>)
    ensures MarkAfter(mark, ends) == mark || exists end <- ends :: MarkAfter(mark, ends) == Some(end)
    ensures forall end <- ends :: MarkAfter(mark, ends).Some? && MarkAfter(mark, ends).value >= end
  {
    if ends != [] {
      var n := |ends| - 1;
      MarkIsAnEnd(mark, ends[..n]);
      assert ends[n] in ends && forall end <- ends :: end == ends[n] || end in ends[..n];
      assert forall end <- ends[..n] :: end in ends;
    }
  }

  /** What a run leaves of the rule: nothing changed if its lease is no longer
      the rule's, and otherwise the lease given back and the mark at the latest
      window evaluated, at the end where there was none to evaluate, or where it
      was if none of those there were got evaluated; never further back. */
  lemma RecordedMark(rule: Shared, lease: Time, ends: seq<Time>, end: Time, none: bool)
    ensures rule.running != Some(lease) ==> Recorded(rule, lease, ends, end, none) == rule
    ensures rule.running == Some(lease) ==>
              var after := Recorded(rule, lease, ends, end, none);
              && after.running == None
              && (ends == [] && !none ==> after.mark == rule.mark)
              && (ends == [] && none ==> after.mark == Some(if rule.mark.None? then end else Max(rule.mark.value, end)))
              && (ends != [] ==> after.mark.Some? && forall e <- ends :: e <= after.mark.value)
              && (ends != [] ==> after.mark == rule.mark || exists e <- ends :: after.mark == Some(e))
              && (rule.mark.Some? ==> after.mark.Some? && after.mark.value >= rule.mark.value)
  {
    MarkIsAnEnd(rule.mark, ends);
  }

  class Rule {
    var evaluatedUntil: Option<Time>
    var runningUntil: Option<Time>

    function State(): Shared
      reads this
    {
      Shared(evaluatedUntil, runningUntil)
    }

    /** Takes the lease to run the rule, unless another run holds one that has not ended. */
    method ClaimRun(now: Time) returns (lease: Option<Time>)
      modifies this`runningUntil
      ensures lease.Some? <==> Free(old(runningUntil), now)
      ensures lease.Some? <==> old(runningUntil).None? || old(runningUntil).value < now
      ensures lease.Some? ==> lease.value == now + RUN_LEASE == now + 900_000_000 && runningUntil == lease
      ensures lease.None? ==> runningUntil == old(runningUntil)
    {
      if runningUntil.Some? && !(runningUntil.value < now) { return None; }
      runningUntil := Some(now + RUN_LEASE);
      lease := runningUntil;
    }

    /** Gives a lease back if it is still the run's. */
    method ReleaseRun(lease: Time)
      modifies this`runningUntil
      ensures runningUntil == if old(runningUntil) == Some(lease) then None else old(runningUntil)
    {
      if runningUntil == Some(lease) { runningUntil := None; }
    }

    /** Writes what a run evaluated, unless its lease is no longer the rule's. */
    method Record(lease: Time, done: seq<Time>, end: Time, none: bool) returns (recorded: bool)
      modifies this
      ensures recorded == (old(runningUntil) == Some(lease))
      ensures State() == Recorded(old(State()), lease, done, end, none)
    {
      if runningUntil != Some(lease) { return false; }
      for i := 0 to |done|
        invariant evaluatedUntil == MarkAfter(old(evaluatedUntil), done[..i]) && runningUntil == old(runningUntil)
      {
        assert done[..i + 1][..i] == done[..i];
        evaluatedUntil := Some(if evaluatedUntil.None? then done[i] else Max(evaluatedUntil.value, done[i]));
      }
      assert done[..|done|] == done;
      if done == [] && none {
        evaluatedUntil := Some(if evaluatedUntil.None? then end else Max(evaluatedUntil.value, end));
      }
      runningUntil := None;
      recorded := true;
    }
  }

  // -- the machine -------------------------------------------------------------------

  datatype Look = Look(mark: Option<Time>, end: Time, step: nat, plan: Plan)

  /** A run: the how-manieth claim it made, its lease, and what it set out to look at. */
  datatype Run = Run(turn: nat, lease: Time, at: Time, look: Option<Look>)

  /** One rule, the database's time, the runs under way, and what was recorded since the rule last started over. */
  datatype World = World(now: Time, rule: Shared, runs: map<nat, Run>, claims: nat,
                         first: Option<Time>, windows: seq<Span>, reported: seq<Span>, hidden: seq<Span>)

  datatype Event =
    | Tick(t: Time)
    | Claim(p: nat)
    | Read(p: nat, delay: nat, step: nat, plan: Plan)
    | Write(p: nat, k: nat, erred: bool)
    | Release(p: nat)
    | Lose(p: nat)
    | Restart

  predicate Enabled(s: World, e: Event) {
    match e
    case Tick(_) => true
    case Claim(p) => p !in s.runs && Free(s.rule.running, s.now)
    case Read(p, delay, step, plan) => p in s.runs && s.runs[p].look.None? && step > 0
                                       && Planned(plan, s.rule.mark, s.runs[p].at - delay, step)
    case Write(p, k, erred) => p in s.runs && s.runs[p].look.Some? && k <= |s.runs[p].look.value.plan.ends|
                               && (erred ==> k < |s.runs[p].look.value.plan.ends|)
    case Release(p) => p in s.runs
    case Lose(p) => p in s.runs
    case Restart => true
  }

  /** The database's time does not go back. */
  predicate Onward(s: World, e: Event) {
    e.Tick? ==> e.t >= s.now
  }

  predicate Holds(s: World, p: nat) {
    p in s.runs && s.rule.running == Some(s.runs[p].lease)
  }

  /** A run's writing. What it left out is told in its note, which an error's
      text takes the place of; if the rule has started over since, that is no
      longer between its marks. */
  function Written(s: World, p: nat, k: nat, erred: bool): World
    requires Enabled(s, Write(p, k, erred))
  {
    var look := s.runs[p].look.value;
    var ends := look.plan.ends[..k];
    var t := s.(runs := s.runs - {p}, rule := Recorded(s.rule, s.runs[p].lease, ends, look.end, look.plan.ends == []));
    if !Holds(s, p) then t
    else if k == 0 then t.(first := if s.first.None? then t.rule.mark else s.first)
    else t.(first := if s.rule.mark.None? then Some(ends[0]) else s.first,
            windows := s.windows + [Looked(look.plan, k, look.step)],
            reported := if look.plan.missed.Some? && !erred then s.reported + [look.plan.missed.value] else s.reported,
            hidden := if look.plan.missed.Some? && erred && s.rule.mark.Some? then s.hidden + [look.plan.missed.value]
                      else s.hidden)
  }

  function Next(s: World, e: Event): World
    requires Enabled(s, e)
  {
    match e
    case Tick(t) => s.(now := t)
    case Claim(p) => s.(rule := s.rule.(running := Some(s.now + RUN_LEASE)), claims := s.claims + 1,
                        runs := s.runs[p := Run(s.claims, s.now + RUN_LEASE, s.now, None)])
    case Read(p, delay, step, plan) =>
      s.(runs := s.runs[p := s.runs[p].(look := Some(Look(s.rule.mark, s.runs[p].at - delay, step, plan)))])
    case Write(p, k, erred) => Written(s, p, k, erred)
    case Release(p) => s.(runs := s.runs - {p}, rule := if Holds(s, p) then s.rule.(running := None) else s.rule)
    case Lose(p) => s.(runs := s.runs - {p})
    case Restart => s.(rule := s.rule.(mark := None), first := None, windows := [], reported := [], hidden := [])
  }

  function Start(now: Time): World {
    World(now, Shared(None, None), map[], 0, None, [], [], [])
  }

  ghost predicate Runs(worlds: seq<World>, events: seq<Event>) {
    && |worlds| == |events| + 1
    && forall i | 0 <= i < |events| :: Enabled(worlds[i], events[i]) && worlds[i + 1] == Next(worlds[i], events[i])
  }

  ghost predicate OnwardRuns(worlds: seq<World>, events: seq<Event>) {
    Runs(worlds, events) && forall i | 0 <= i < |events| :: Onward(worlds[i], events[i])
  }

  // -- taking turns --------------------------------------------------------------------

  /** A run either holds the rule and made the last claim, or its lease has ended. */
  predicate RunOk(s: World, p: nat)
    requires p in s.runs
  {
    var r := s.runs[p];
    && r.turn < s.claims && r.lease == r.at + RUN_LEASE && r.at <= s.now
    && (if s.rule.running == Some(r.lease) then r.turn == s.claims - 1 else r.lease < s.now)
  }

  predicate LookOk(s: World, p: nat)
    requires p in s.runs
  {
    var r := s.runs[p];
    r.look.Some? ==>
      var l := r.look.value;
      && l.step > 0 && Planned(l.plan, l.mark, l.end, l.step)
      && (s.rule.running == Some(r.lease) ==> s.rule.mark == l.mark || s.rule.mark == None)
  }

  predicate Turns(s: World) {
    && (forall p <- s.runs :: RunOk(s, p) && LookOk(s, p))
    && forall p, q | p in s.runs && q in s.runs && s.runs[p].turn == s.runs[q].turn :: p == q
  }

  lemma TickKeeps(s: World, now: Time)
    requires Turns(s) && now >= s.now
    ensures Turns(s.(now := now))
  {
    forall p <- s.runs ensures RunOk(s.(now := now), p) && LookOk(s.(now := now), p) {
      assert RunOk(s, p) && LookOk(s, p);
    }
  }

  lemma ClaimKeeps(s: World, p: nat)
    requires Turns(s) && Enabled(s, Claim(p))
    ensures Turns(Next(s, Claim(p)))
  {
    var t := Next(s, Claim(p));
    forall q <- t.runs ensures RunOk(t, q) && LookOk(t, q) {
      if q != p { assert RunOk(s, q) && LookOk(s, q); }
    }
    assert forall q <- s.runs :: RunOk(s, q);
  }

  lemma ReadKeeps(s: World, p: nat, delay: nat, step: nat, plan: Plan)
    requires Turns(s) && Enabled(s, Read(p, delay, step, plan))
    ensures Turns(Next(s, Read(p, delay, step, plan)))
  {
    var t := Next(s, Read(p, delay, step, plan));
    forall q <- t.runs ensures RunOk(t, q) && LookOk(t, q) { assert RunOk(s, q) && LookOk(s, q); }
  }

  /** The run that ends here was the only one to hold the rule, if it did. */
  lemma EndKeeps(s: World, p: nat, t: World)
    requires Turns(s) && p in s.runs
    requires t.runs == s.runs - {p} && t.claims == s.claims && t.now == s.now
    requires t.rule == s.rule || (Holds(s, p) && t.rule.running == None)
    ensures Turns(t)
  {
    assert RunOk(s, p);
    forall q <- t.runs ensures RunOk(t, q) && LookOk(t, q) { assert RunOk(s, q) && LookOk(s, q); }
  }

  lemma RestartKeeps(s: World)
    requires Turns(s)
    ensures Turns(Next(s, Restart))
  {
    var t := Next(s, Restart);
    forall p <- t.runs ensures RunOk(t, p) && LookOk(t, p) { assert RunOk(s, p) && LookOk(s, p); }
  }

  /** Every step keeps: the holder of the lease made the last claim, and every other run's lease has ended. */
  lemma TurnsKeep(s: World, e: Event)
    requires Turns(s) && Enabled(s, e) && Onward(s, e)
    ensures Turns(Next(s, e))
  {
    match e
    case Tick(now) => TickKeeps(s, now);
    case Claim(p) => ClaimKeeps(s, p);
    case Read(p, delay, step, plan) => ReadKeeps(s, p, delay, step, plan);
    case Write(p, k, erred) => EndKeeps(s, p, Next(s, e));
    case Release(p) => EndKeeps(s, p, Next(s, e));
    case Lose(p) => EndKeeps(s, p, Next(s, e));
    case Restart => RestartKeeps(s);
  }

  lemma {:induction false} TurnsRun(worlds: seq<World>, events: seq<Event>, now: Time, k: nat)
    requires OnwardRuns(worlds, events) && worlds[0] == Start(now) && k < |worlds|
    ensures Turns(worlds[k])
  {
    if k > 0 {
      TurnsRun(worlds, events, now, k - 1);
      assert Onward(worlds[k - 1], events[k - 1]);
      TurnsKeep(worlds[k - 1], events[k - 1]);
    }
  }

  lemma {:induction false} ClaimsCount(worlds: seq<World>, events: seq<Event>, i: nat, k: nat)
    requires Runs(worlds, events) && i <= k < |worlds|
    ensures worlds[i].claims <= worlds[k].claims
    ensures worlds[k].claims == worlds[i].claims ==> forall m | i <= m < k :: !events[m].Claim?
    decreases k - i
  {
    if i < k {
      ClaimsCount(worlds, events, i, k - 1);
      assert worlds[k] == Next(worlds[k - 1], events[k - 1]);
    }
  }

  /** A run records only if no other run claimed the rule between its claim and its record. */
  lemma Serial(worlds: seq<World>, events: seq<Event>, now: Time, i: nat, j: nat, p: nat)
    requires OnwardRuns(worlds, events) && worlds[0] == Start(now) && i < j < |events|
    requires events[i] == Claim(p) && events[j].Write? && events[j].p == p && Holds(worlds[j], p)
    requires worlds[j].runs[p].turn == worlds[i].claims
    ensures forall m | i < m < j :: !events[m].Claim?
  {
    TurnsRun(worlds, events, now, j);
    assert RunOk(worlds[j], p);
    assert worlds[i + 1] == Next(worlds[i], events[i]);
    ClaimsCount(worlds, events, i + 1, j);
  }

  // -- looking everywhere ----------------------------------------------------------------

  predicate Seen(s: World, t: Time) {
    InSome(t, s.windows) || InSome(t, s.reported)
  }

  /** Every moment from the first mark to the mark was looked at or told of, or its note was lost to an error. */
  predicate Covered(s: World) {
    if s.rule.mark.None? then s.first.None? else
      && s.first.Some? && s.first.value <= s.rule.mark.value
      && forall t: Time | s.first.value <= t < s.rule.mark.value :: Seen(s, t) || InSome(t, s.hidden)
  }

  lemma More(t: Time, spans: seq<Span>, span: Span)
    ensures InSome(t, spans) || Within(t, span) ==> InSome(t, spans + [span])
  {
    assert span in spans + [span];
    assert forall x <- spans :: x in spans + [span];
  }

  /** What one run that records adds to what was seen. */
  lemma WriteCovers(s: World, p: nat, k: nat, erred: bool)
    requires Turns(s) && Covered(s) && Enabled(s, Write(p, k, erred)) && Holds(s, p) && k > 0
    ensures Covered(Written(s, p, k, erred))
  {
    assert RunOk(s, p) && LookOk(s, p);
    var look := s.runs[p].look.value;
    var t := Written(s, p, k, erred);
    RisingEnds(look, k);
    MarkIsLast(s.rule.mark, look.plan.ends[..k]);
    var window := Looked(look.plan, k, look.step);
    forall m: Time | t.first.value <= m < t.rule.mark.value ensures Seen(t, m) || InSome(m, t.hidden) {
      More(m, s.windows, window);
      if look.plan.missed.Some? {
        More(m, s.reported, look.plan.missed.value);
        More(m, s.hidden, look.plan.missed.value);
      }
    }
  }

  /** The windows of a run end one after another, the first past the mark it set out from. */
  lemma RisingEnds(look: Look, k: nat)
    requires look.step > 0 && Planned(look.plan, look.mark, look.end, look.step) && 0 < k <= |look.plan.ends|
    ensures forall i, j | 0 <= i < j < k :: look.plan.ends[..k][i] <= look.plan.ends[..k][j]
    ensures look.mark.Some? ==> look.mark.value < look.plan.ends[0]
  {
    var ends := look.plan.ends;
    forall i, j | 0 <= i < j < k ensures ends[i] <= ends[j] {
      if |ends| > 1 { Further(ends, ends[0] - look.step, look.step, i, j); }
    }
  }

  lemma CoveredKeeps(s: World, e: Event)
    requires Turns(s) && Covered(s) && Enabled(s, e) && Onward(s, e)
    ensures Covered(Next(s, e))
  {
    if e.Write? && Holds(s, e.p) && e.k > 0 {
      WriteCovers(s, e.p, e.k, e.erred);
    } else if e.Write? && Holds(s, e.p) {
      assert RunOk(s, e.p) && LookOk(s, e.p);
      assert Written(s, e.p, e.k, e.erred).rule.mark == s.rule.mark || s.rule.mark == None;
    }
  }

  /** For a rule without a schedule: every moment from its first mark to its
      mark lies in a recorded window or in a span a note reports, but for
      the spans of runs that met an error after a window, whose note the error replaces. */
  lemma {:induction false} AlwaysCovered(worlds: seq<World>, events: seq<Event>, now: Time, k: nat)
    requires OnwardRuns(worlds, events) && worlds[0] == Start(now) && k < |worlds|
    ensures Covered(worlds[k])
  {
    if k > 0 {
      AlwaysCovered(worlds, events, now, k - 1);
      TurnsRun(worlds, events, now, k - 1);
      assert Onward(worlds[k - 1], events[k - 1]);
      CoveredKeeps(worlds[k - 1], events[k - 1]);
    }
  }

  /** The moments between the old mark and the new one that one run accounts for. */
  predicate Accounts(look: Look, k: nat, erred: bool, t: Time)
    requires 0 < k <= |look.plan.ends|
  {
    || Within(t, Looked(look.plan, k, look.step))
    || (look.plan.missed.Some? && !erred && Within(t, look.plan.missed.value))
  }

  /** A run that moves the mark accounts for all it moves over exactly when it
      left nothing out or met no error. */
  lemma RunAccounts(look: Look, k: nat, erred: bool)
    requires look.step > 0 && Planned(look.plan, look.mark, look.end, look.step) && look.mark.Some?
    requires 0 < k <= |look.plan.ends|
    ensures (forall t: Time | look.mark.value <= t < look.plan.ends[k - 1] :: Accounts(look, k, erred, t))
            <==> look.plan.missed.None? || !erred
  {
    RisingEnds(look, k);
    var ends := look.plan.ends;
    assert ends[..k][0] == ends[0] && ends[..k][k - 1] == ends[k - 1];
    assert ends[0] <= ends[k - 1];
    if look.plan.missed.Some? && erred {
      assert !Accounts(look, k, erred, look.mark.value);
    } else {
      forall t: Time | look.mark.value <= t < ends[k - 1] ensures Accounts(look, k, erred, t) {
      }
    }
  }

  // -- exactly which moments are neither looked at nor told of ----------------------------

  predicate Before(x: Span, y: Span) {
    x.1 <= y.0
  }

  /** Spans whose note was lost lie between the marks, and nothing looked at or told of meets one. */
  ghost predicate Clear(s: World) {
    && (s.hidden != [] ==> s.first.Some? && s.rule.mark.Some?)
    && (forall h <- s.hidden :: s.first.value <= h.0 < h.1 <= s.rule.mark.value)
    && (forall x | x in s.windows || x in s.reported :: s.rule.mark.Some? && x.1 <= s.rule.mark.value)
    && (forall h, x | h in s.hidden && (x in s.windows || x in s.reported) :: Before(x, h) || Before(h, x))
  }

  /** A window of this length that ends past the mark does not reach back to a span whose note was lost. */
  predicate Room(s: World, step: nat) {
    forall h <- s.hidden :: s.rule.mark.Some? && h.1 <= s.rule.mark.value - step
  }

  /** Nor will one, whatever is written next. */
  predicate Ahead(s: World, step: nat) {
    Room(s, step) && forall p <- s.runs :: s.runs[p].look.Some? ==> step <= s.runs[p].look.value.step
  }

  predicate HolderHasRoom(s: World) {
    forall p <- s.runs :: Holds(s, p) && s.runs[p].look.Some? ==> Room(s, s.runs[p].look.value.step)
  }

  /** Where a run's windows lie beside the mark it set out from. */
  lemma LookPlaces(look: Look, k: nat)
    requires look.step > 0 && Planned(look.plan, look.mark, look.end, look.step) && 0 < k <= |look.plan.ends|
    ensures var window := Looked(look.plan, k, look.step);
            && window.0 + look.step <= window.1
            && (look.mark.Some? ==> window.1 > look.mark.value && window.0 > look.mark.value - look.step)
            && (look.plan.missed.Some? ==>
                  look.mark.Some? && look.plan.missed.value.0 == look.mark.value < look.plan.missed.value.1 == window.0)
  {
    RisingEnds(look, k);
    var ends := look.plan.ends;
    assert ends[..k][0] == ends[0] && ends[..k][k - 1] == ends[k - 1];
    assert ends[0] <= ends[k - 1];
  }

  lemma WriteClear(s: World, p: nat, k: nat, erred: bool)
    requires Turns(s) && Covered(s) && Clear(s) && HolderHasRoom(s)
    requires Enabled(s, Write(p, k, erred)) && Holds(s, p) && k > 0
    ensures Clear(Written(s, p, k, erred))
  {
    assert RunOk(s, p) && LookOk(s, p);
    var look := s.runs[p].look.value;
    RisingEnds(look, k);
    MarkIsLast(s.rule.mark, look.plan.ends[..k]);
    LookPlaces(look, k);
    var t := Written(s, p, k, erred);
    var window := Looked(look.plan, k, look.step);
    assert t.rule.mark == Some(window.1);
    assert Room(s, look.step);
    forall h, x | h in t.hidden && (x in t.windows || x in t.reported) ensures Before(x, h) || Before(h, x) {
      if h in s.hidden { assert h.1 <= s.rule.mark.value - look.step; }
    }
  }

  lemma ClearKeeps(s: World, e: Event)
    requires Turns(s) && Covered(s) && Clear(s) && HolderHasRoom(s) && Enabled(s, e)
    ensures Clear(Next(s, e))
  {
    if e.Write? && Holds(s, e.p) {
      if e.k > 0 { WriteClear(s, e.p, e.k, e.erred); }
      else { assert RunOk(s, e.p) && LookOk(s, e.p); }
    }
  }

  lemma AheadKeeps(s: World, e: Event, step: nat)
    requires Turns(s) && Clear(s) && Enabled(s, e) && Ahead(s, step) && (e.Read? ==> step <= e.step)
    ensures Ahead(Next(s, e), step)
  {
    if e.Write? && Holds(s, e.p) {
      assert RunOk(s, e.p) && LookOk(s, e.p);
      var look := s.runs[e.p].look.value;
      if e.k > 0 {
        RisingEnds(look, e.k);
        MarkIsLast(s.rule.mark, look.plan.ends[..e.k]);
        LookPlaces(look, e.k);
      }
    }
  }

  lemma HolderKeeps(s: World, e: Event)
    requires Turns(s) && HolderHasRoom(s) && Enabled(s, e) && (e.Read? ==> Room(s, e.step))
    ensures HolderHasRoom(Next(s, e))
  {
    var t := Next(s, e);
    forall p <- t.runs | Holds(t, p) && t.runs[p].look.Some? ensures Room(t, t.runs[p].look.value.step) {
      assert RunOk(s, p);
      if e.Write? || e.Release? { assert RunOk(s, e.p); }
    }
  }

  /** The rule's window is never made longer. */
  predicate NeverLonger(events: seq<Event>) {
    forall i, j | 0 <= i < j < |events| && events[i].Read? && events[j].Read? :: events[j].step <= events[i].step
  }

  /** Nothing looked at meets a span whose note was lost, nor will anything the events from the k-th on look at. */
  ghost predicate ClearFrom(s: World, events: seq<Event>, k: nat) {
    Clear(s) && HolderHasRoom(s) && forall j | k <= j < |events| && events[j].Read? :: Ahead(s, events[j].step)
  }

  lemma ClearStep(s: World, events: seq<Event>, k: nat)
    requires Turns(s) && Covered(s) && NeverLonger(events) && k < |events| && ClearFrom(s, events, k)
    requires Enabled(s, events[k])
    ensures ClearFrom(Next(s, events[k]), events, k + 1)
  {
    var e := events[k];
    ClearKeeps(s, e);
    assert e.Read? ==> Ahead(s, e.step);
    HolderKeeps(s, e);
    forall j | k + 1 <= j < |events| && events[j].Read? ensures Ahead(Next(s, e), events[j].step) {
      AheadKeeps(s, e, events[j].step);
    }
  }

  lemma {:induction false} ClearRun(worlds: seq<World>, events: seq<Event>, now: Time, k: nat)
    requires OnwardRuns(worlds, events) && worlds[0] == Start(now) && NeverLonger(events) && k < |worlds|
    ensures ClearFrom(worlds[k], events, k)
  {
    if k == 0 {
      assert worlds[0].hidden == [] && worlds[0].runs == map[];
    } else {
      ClearRun(worlds, events, now, k - 1);
      TurnsRun(worlds, events, now, k - 1);
      AlwaysCovered(worlds, events, now, k - 1);
      assert worlds[k] == Next(worlds[k - 1], events[k - 1]);
      ClearStep(worlds[k - 1], events, k - 1);
    }
  }

  predicate BetweenMarks(s: World, t: Time) {
    s.first.Some? && s.rule.mark.Some? && s.first.value <= t < s.rule.mark.value
  }

  /** Over any runs of a rule whose window is never made longer: between its
      first mark and its mark, what is in no recorded window and in no span a
      note reports is exactly what lies in a span whose note an error
      replaced. So nothing is left out in silence if and only if no run met an
      error after a window while it had a span to report. */
  lemma SilentExactly(worlds: seq<World>, events: seq<Event>, now: Time, k: nat)
    requires OnwardRuns(worlds, events) && worlds[0] == Start(now) && NeverLonger(events) && k < |worlds|
    ensures forall t: Time | BetweenMarks(worlds[k], t) :: Seen(worlds[k], t) <==> !InSome(t, worlds[k].hidden)
    ensures (forall t: Time | BetweenMarks(worlds[k], t) :: Seen(worlds[k], t)) <==> worlds[k].hidden == []
  {
    ClearRun(worlds, events, now, k);
    AlwaysCovered(worlds, events, now, k);
    var s := worlds[k];
    forall t: Time | BetweenMarks(s, t) ensures Seen(s, t) <==> !InSome(t, s.hidden) {
      SeenIsNotHidden(s, t);
    }
    if s.hidden != [] {
      var h := s.hidden[0];
      assert h in s.hidden && Within(h.0, h);
      assert BetweenMarks(s, h.0) && InSome(h.0, s.hidden);
    }
  }

  lemma SeenIsNotHidden(s: World, t: Time)
    requires Clear(s)
    ensures Seen(s, t) ==> !InSome(t, s.hidden)
  {
    if Seen(s, t) {
      var x :| (x in s.windows || x in s.reported) && Within(t, x);
      forall h <- s.hidden ensures !Within(t, h) { assert Before(x, h) || Before(h, x); }
    }
  }

  // -- runs that fall short ------------------------------------------------------------------

  lemma OneMore(worlds: seq<World>, events: seq<Event>, s: World, e: Event)
    returns (worlds': seq<World>, events': seq<Event>)
    requires Runs(worlds, events) && worlds[|events|] == s && Enabled(s, e)
    ensures Runs(worlds', events') && worlds'[|events'|] == Next(s, e) && events' == events + [e]
    ensures worlds'[0] == worlds[0]
  {
    worlds', events' := worlds + [Next(s, e)], events + [e];
  }

  /** With a database clock that goes back, two claims can have one lease, and
      a run can record although two others claimed the rule since. */
  lemma ClockBackOverlaps() returns (worlds: seq<World>, events: seq<Event>)
    ensures Runs(worlds, events) && worlds[0] == Start(0) && |events| > 0 && events[0] == Claim(1)
    ensures var s := worlds[|events|]; Holds(s, 1) && s.runs[1].turn == 0 && s.claims == 3
  {
    var s := Start(0);
    worlds, events := OneMore([s], [], s, Claim(1));
    s := Next(s, Claim(1));
    worlds, events := OneMore(worlds, events, s, Tick(RUN_LEASE + 1));
    s := Next(s, Tick(RUN_LEASE + 1));
    worlds, events := OneMore(worlds, events, s, Claim(2));
    s := Next(s, Claim(2));
    worlds, events := OneMore(worlds, events, s, Release(2));
    s := Next(s, Release(2));
    worlds, events := OneMore(worlds, events, s, Tick(0));
    s := Next(s, Tick(0));
    worlds, events := OneMore(worlds, events, s, Claim(3));
  }

  lemma OnwardOne(worlds: seq<World>, events: seq<Event>, s: World, e: Event)
    returns (worlds': seq<World>, events': seq<Event>)
    requires OnwardRuns(worlds, events) && worlds[|events|] == s && Enabled(s, e) && Onward(s, e)
    ensures OnwardRuns(worlds', events') && worlds'[|events'|] == Next(s, e)
    ensures events' == events + [e] && worlds'[0] == worlds[0]
  {
    worlds', events' := worlds + [Next(s, e)], events + [e];
  }

  /** At this time a run claims the rule and reads it. */
  lemma Sets(worlds: seq<World>, events: seq<Event>, s: World, now: Time, p: nat, step: nat, plan: Plan)
    returns (worlds': seq<World>, events': seq<Event>, t: World)
    requires OnwardRuns(worlds, events) && worlds[|events|] == s && p !in s.runs && s.rule.running == None
    requires now >= s.now
    requires step > 0 && Planned(plan, s.rule.mark, now, step)
    ensures OnwardRuns(worlds', events') && worlds'[|events'|] == t && worlds'[0] == worlds[0]
    ensures events' == events + [Tick(now), Claim(p), Read(p, 0, step, plan)]
    ensures t == s.(now := now, rule := s.rule.(running := Some(now + RUN_LEASE)), claims := s.claims + 1,
                    runs := s.runs[p := Run(s.claims, now + RUN_LEASE, now, Some(Look(s.rule.mark, now, step, plan)))])
  {
    t := Next(s, Tick(now));
    worlds', events' := OnwardOne(worlds, events, s, Tick(now));
    worlds', events' := OnwardOne(worlds', events', t, Claim(p));
    t := Next(t, Claim(p));
    worlds', events' := OnwardOne(worlds', events', t, Read(p, 0, step, plan));
    t := Next(t, Read(p, 0, step, plan));
  }

  lemma MarkOfOne(mark: Option<Time>, end: Time)
    ensures MarkAfter(mark, [end]) == Some(if mark.None? then end else Max(mark.value, end))
  {
    assert [end][..0] == [];
  }

  /** And writes the first of its windows. */
  lemma Ran(worlds: seq<World>, events: seq<Event>, s: World, now: Time, p: nat, step: nat, plan: Plan, erred: bool)
    returns (worlds': seq<World>, events': seq<Event>, t: World)
    requires OnwardRuns(worlds, events) && worlds[|events|] == s && s.runs == map[] && s.rule.running == None
    requires now >= s.now
    requires step > 0 && Planned(plan, s.rule.mark, now, step) && |plan.ends| > if erred then 1 else 0
    ensures OnwardRuns(worlds', events') && worlds'[|events'|] == t && worlds'[0] == worlds[0]
    ensures events' == events + [Tick(now), Claim(p), Read(p, 0, step, plan), Write(p, 1, erred)]
    ensures t.now == now && t.runs == map[] && t.rule.running == None
    ensures t.rule.mark == Some(if s.rule.mark.None? then plan.ends[0] else Max(s.rule.mark.value, plan.ends[0]))
    ensures t.first == if s.rule.mark.None? then Some(plan.ends[0]) else s.first
    ensures t.windows == s.windows + [(plan.ends[0] - step, plan.ends[0])]
    ensures plan.missed.None? ==> t.reported == s.reported && t.hidden == s.hidden
    ensures plan.missed.Some? && erred ==> t.reported == s.reported && t.hidden == s.hidden + [plan.missed.value]
  {
    worlds', events', t := Sets(worlds, events, s, now, p, step, plan);
    worlds', events' := OnwardOne(worlds', events', t, Write(p, 1, erred));
    assert plan.ends[..1] == [plan.ends[0]];
    MarkOfOne(s.rule.mark, plan.ends[0]);
    t := Next(t, Write(p, 1, erred));
  }

  /** A rule of three hour windows, seven hours behind: its run evaluates one
      window and meets an error in the next. The hour it left out is neither
      looked at nor told of, and the mark is past it. */
  lemma NoteLost() returns (worlds: seq<World>, events: seq<Event>, s: World)
    ensures OnwardRuns(worlds, events) && worlds[0] == Start(0) && worlds[|events|] == s && NeverLonger(events)
    ensures s.now == 7 * HOUR && s.rule == Shared(Some(4 * HOUR), None) && s.runs == map[] && s.first == Some(0)
    ensures s.windows == [(-3 * HOUR, 0), (HOUR, 4 * HOUR)] && s.reported == [] && s.hidden == [(0, HOUR)]
    ensures forall t: Time | 0 <= t < HOUR :: BetweenMarks(s, t) && !Seen(s, t)
  {
    s := Start(0);
    worlds, events, s := Ran([s], [], s, 0, 1, 3 * HOUR, Plan([0], None), false);
    worlds, events, s := Ran(worlds, events, s, 7 * HOUR, 2, 3 * HOUR, Plan([4 * HOUR, 7 * HOUR], Some((0, HOUR))),
                             true);
    assert forall e <- events :: e.Read? ==> e.step == 3 * HOUR;
    SilentHour(s);
  }

  lemma SilentHour(s: World)
    requires s.windows == [(-3 * HOUR, 0), (HOUR, 4 * HOUR)] && s.reported == []
    requires s.first == Some(0) && s.rule.mark == Some(4 * HOUR)
    ensures forall t: Time | 0 <= t < HOUR :: BetweenMarks(s, t) && !Seen(s, t)
  {
  }

  /** The same rule, its window then made a day long: the next run looks at that hour after all. */
  lemma LongerLooksBack() returns (worlds: seq<World>, events: seq<Event>, s: World)
    ensures OnwardRuns(worlds, events) && worlds[0] == Start(0) && worlds[|events|] == s
    ensures s.hidden != [] && forall t: Time | BetweenMarks(s, t) :: Seen(s, t)
  {
    worlds, events, s := NoteLost();
    worlds, events, s := Ran(worlds, events, s, 8 * HOUR, 3, 24 * HOUR, Plan([8 * HOUR], None), false);
    assert (-16 * HOUR, 8 * HOUR) in s.windows;
  }
}
