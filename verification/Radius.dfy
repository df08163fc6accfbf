/** Who held an address: libtb.radius's merge of RADIUS accounting reports
    (sections 5.1 to 5.7 of RFC 2866) and the lookup over what it kept. */
module Radius {
  import opened Wrappers
  import opened SignIns

  const MAX_SESSIONS: nat := 64

  /** Whether a session has ended: a stop was reported, or only inferred from
      its device being reported with another address. */
  datatype Stop = Running | Inferred(at: Time) | Real(at: Time)

  /** What is kept of one session at one address, its sign-ins aside. Empty
      strings stand for absent ones, as in the stored record. */
  datatype Core = Core(
    user: string,
    mac: string,
    start: Time,
    timed: bool,
    last: Time,
    first: Option<Time>,
    stop: Stop,
    signed: bool,
    klass: string,
    bridged: bool,
    reported: Option<Time>)

  datatype Session = Session(core: Core, signIns: seq<SignIn>)

  /** One report, as handed to the script. */
  datatype Report = Report(
    user: string,
    mac: string,
    start: Time,
    timed: bool,
    seen: Time,
    stopped: Option<Time>,
    moved: bool,
    signed: bool,
    klass: string,
    signin: Option<Time>,
    bridged: bool,
    reported: Option<Time>)
  {
    function Stop(): Stop {
      match stopped
      case None => Running
      case Some(t) => if moved then Inferred(t) else Real(t)
    }
  }

  function SoonerKnown(a: Option<Time>, b: Option<Time>): Option<Time> {
    match (a, b)
    case (None, _) => b
    case (_, None) => a
    case (Some(s), Some(t)) => Some(Min(s, t))
  }

  /** From before the known start of the session recorded under its id: an earlier session's. */
  predicate Ignored(was: Core, r: Report) {
    was.timed && r.seen < was.start - CLOCK_SLACK
  }

  /** Of a session that started, for certain, after the recorded one was last reported. */
  predicate Reuses(was: Core, r: Report) {
    r.timed && r.start > was.last + CLOCK_SLACK
  }

  /** How two accounts of a session's end combine. A real stop stays, and the
      latest counts. An inferred one gives way to a later report at the
      address, keeps its time against a later stop, and is the earlier of two. */
  function MergeStop(was: Stop, last: Time, reported: Stop, seen: Time): Stop {
    var now := if reported.Inferred? && last > reported.at then Running else reported;
    match (was, now)
    case (Running, _) => now
    case (Real(e), Real(t)) => Real(Max(e, t))
    case (Real(e), _) => was
    case (Inferred(e), Running) => if seen > e then Running else was
    case (Inferred(e), Inferred(t)) => Inferred(Min(e, t))
    case (Inferred(e), Real(t)) => Real(Min(e, t))
  }

  /** The reported name holds only under the Class it was given under. */
  predicate SameSignIn(was: Core, r: Report) {
    r.klass == "" || was.klass == "" || was.klass == r.klass
  }

  function FreshCore(r: Report): Core {
    Core(r.user, r.mac, r.start, r.timed, r.seen, if r.bridged then None else Some(r.seen), r.Stop(), r.signed,
         r.klass, r.bridged, if r.bridged then r.reported else None)
  }

  function MergedCore(was: Core, r: Report): Core {
    var keeps := SameSignIn(was, r) && (r.user == "" || (was.signed && !r.signed));
    Core(
      if keeps then was.user else r.user,
      if r.mac == "" then was.mac else r.mac,
      if r.timed && !was.timed && r.start < was.start then r.start else was.start,
      r.timed || was.timed,
      if was.stop.Inferred? && r.Stop().Real? && r.stopped.value > was.stop.at then was.last else Max(was.last, r.seen),
      SoonerKnown(if r.bridged then None else Some(r.seen), was.first),
      MergeStop(was.stop, was.last, r.Stop(), r.seen),
      if keeps then was.signed else r.user != "" && r.signed,
      if r.klass == "" then was.klass else r.klass,
      r.bridged && was.bridged,
      if !(r.bridged && was.bridged) then None else if r.reported.Some? then r.reported else was.reported)
  }

  /** What a report leaves of a session, None when it is ignored. */
  function After(was: Option<Core>, r: Report): Option<Core> {
    if was.Some? && Ignored(was.value, r) then None
    else if was.None? || Reuses(was.value, r) then Some(FreshCore(r))
    else Some(MergedCore(was.value, r))
  }

  /** The script's weighing of one session's end, step by step. */
  method MergeEnd(o: Core, r: Report) returns (stopped: Option<Time>, moved: bool, seen: Time)
    ensures stopped.None? ==> !moved
    ensures (if stopped.None? then Running else if moved then Inferred(stopped.value) else Real(stopped.value))
            == MergedCore(o, r).stop
    ensures seen == MergedCore(o, r).last
  {
    stopped, moved, seen := r.stopped, r.stopped.Some? && r.moved, r.seen;
    var reportedAt := seen;
    if o.last > seen { seen := o.last; }
    if moved && o.last > stopped.value { stopped, moved := None, false; }
    if !o.stop.Running? {
      var wasMoved := o.stop.Inferred?;
      if stopped.None? {
        if !(wasMoved && reportedAt > o.stop.at) { stopped, moved := Some(o.stop.at), wasMoved; }
      } else if moved {
        if !wasMoved {
          stopped, moved := Some(o.stop.at), false;
        } else if o.stop.at < stopped.value {
          stopped := Some(o.stop.at);
        }
      } else if wasMoved {
        if stopped.value > o.stop.at { stopped, seen := Some(o.stop.at), o.last; }
        moved := false;
      } else if o.stop.at > stopped.value {
        stopped := Some(o.stop.at);
      }
    }
  }

  /** The script's choice of name. */
  method MergeName(o: Core, r: Report) returns (user: string, signed: bool)
    ensures user == MergedCore(o, r).user && signed == MergedCore(o, r).signed
  {
    user, signed := r.user, r.signed;
    var same := r.klass == "" || o.klass == "" || o.klass == r.klass;
    if user == "" {
      if same { user := o.user; }
      signed := same && o.signed;
    } else if same && o.signed && !signed {
      user, signed := o.user, true;
    }
  }

  /** RECORD_SCRIPT, up to the sign-ins: one report merged into what is held. */
  method Merge(held: Option<Core>, r: Report) returns (value: Option<Core>)
    ensures value == After(held, r)
  {
    if held.Some? && held.value.timed && r.seen < held.value.start - CLOCK_SLACK { return None; }
    if held.None? || (r.timed && r.start > held.value.last + CLOCK_SLACK) {
      var first := if r.bridged then None else Some(r.seen);
      var end := if r.stopped.None? then Running
                 else if r.moved then Inferred(r.stopped.value) else Real(r.stopped.value);
      return Some(Core(r.user, r.mac, r.start, r.timed, r.seen, first, end, r.signed, r.klass, r.bridged,
                       if r.bridged then r.reported else None));
    }
    var core := MergeInto(held.value, r);
    value := Some(core);
  }

  /** The script's merge of a report into a session it belongs to. */
  method MergeInto(o: Core, r: Report) returns (core: Core)
    ensures core == MergedCore(o, r)
  {
    var first := if r.bridged then None else Some(r.seen);
    var start := if !(r.timed && !o.timed && r.start < o.start) then o.start else r.start;
    var stopped, moved, seen := MergeEnd(o, r);
    var user, signed := MergeName(o, r);
    var klass, device := if r.klass == "" then o.klass else r.klass, if r.mac == "" then o.mac else r.mac;
    var bridged := r.bridged && o.bridged;
    var reported := if r.reported.None? then o.reported else r.reported;
    if o.first.Some? && (first.None? || o.first.value < first.value) { first := o.first; }
    var end := if stopped.None? then Running else if moved then Inferred(stopped.value) else Real(stopped.value);
    core := Core(user, device, start, r.timed || o.timed, seen, first, end, signed, klass, bridged,
                 if bridged then reported else None);
  }

  // -- one session's reports ------------------------------------------------

  function Fold(was: Option<Core>, reports: seq<Report>): Option<Core> {
    if reports == [] then was
    else
      var before := Fold(was, reports[..|reports| - 1]);
      var after := After(before, reports[|reports| - 1]);
      if after.None? then before else after
  }

  // -- delivery order and repetition ----------------------------------------

  /** Reports of one session with known starts that agree to within the clock slack, with no roam or move. */
  predicate Agreeing(reports: seq<Report>) {
    && (forall r <- reports :: r.timed && !r.bridged && !r.moved && r.start <= r.seen)
    && (forall r, s | r in reports && s in reports :: r.start <= s.start + CLOCK_SLACK)
  }

  function LastSeen(reports: seq<Report>): Time
    requires reports != []
  {
    var k := |reports| - 1;
    if k == 0 then reports[0].seen else Max(LastSeen(reports[..k]), reports[k].seen)
  }

  function FirstSeen(reports: seq<Report>): Time
    requires reports != []
  {
    var k := |reports| - 1;
    if k == 0 then reports[0].seen else Min(FirstSeen(reports[..k]), reports[k].seen)
  }

  function StopOf(reports: seq<Report>): Stop {
    if reports == [] then Running
    else
      var k := |reports| - 1;
      match (StopOf(reports[..k]), reports[k].stopped)
      case (s, None) => s
      case (Real(e), Some(t)) => Real(Max(e, t))
      case (_, Some(t)) => Real(t)
  }

  /** Any of these reports can still be taken: none is from before the session, or after it. */
  predicate Open(core: Core, reports: seq<Report>) {
    && core.timed && !core.bridged && !core.stop.Inferred?
    && forall r <- reports :: core.start - CLOCK_SLACK <= r.start <= core.last + CLOCK_SLACK
  }

  lemma AgreeingStep(core: Core, r: Report, reports: seq<Report>)
    requires Agreeing(reports) && r in reports && Open(core, reports)
    ensures var now := After(Some(core), r);
            && now.Some? && Open(now.value, reports)
            && now.value.last == Max(core.last, r.seen)
            && now.value.first == SoonerKnown(Some(r.seen), core.first)
            && now.value.stop == (match (core.stop, r.stopped)
                                  case (s, None) => s
                                  case (Real(e), Some(t)) => Real(Max(e, t))
                                  case (_, Some(t)) => Real(t))
  {
  }

  /** What agreeing reports come to, in whatever order they come. */
  lemma {:induction false} AgreeingFold(part: seq<Report>, reports: seq<Report>)
    requires Agreeing(reports) && part != [] && forall r <- part :: r in reports
    ensures var now := Fold(None, part);
            && now.Some? && Open(now.value, reports)
            && now.value.last == LastSeen(part)
            && now.value.first == Some(FirstSeen(part))
            && now.value.stop == StopOf(part)
  {
    var k := |part| - 1;
    assert part[k] in reports;
    if k == 0 {
      assert part[..0] == [];
    } else {
      AgreeingFold(part[..k], reports);
      AgreeingStep(Fold(None, part[..k]).value, part[k], reports);
    }
  }

  /** The extremes do not depend on order or repetition. */
  lemma {:induction false} Extremes(reports: seq<Report>)
    requires reports != []
    ensures (forall r <- reports :: FirstSeen(reports) <= r.seen <= LastSeen(reports))
    ensures (exists r <- reports :: r.seen == LastSeen(reports))
    ensures (exists r <- reports :: r.seen == FirstSeen(reports))
    ensures match StopOf(reports)
            case Running => forall r <- reports :: r.stopped.None?
            case Real(e) => (exists r <- reports :: r.stopped == Some(e))
                            && forall r <- reports | r.stopped.Some? :: r.stopped.value <= e
            case _ => false
  {
    var k := |reports| - 1;
    assert reports == reports[..k] + [reports[k]];
    if k == 0 {
      assert StopOf(reports[..0]) == Running;
    } else {
      Extremes(reports[..k]);
      assert forall r <- reports[..k] :: r in reports;
    }
    assert reports[k] in reports;
  }

  lemma SameExtremes(a: seq<Report>, b: seq<Report>)
    requires a != [] && b != [] && (forall r :: r in a <==> r in b)
    ensures LastSeen(a) == LastSeen(b) && FirstSeen(a) == FirstSeen(b)
  {
    Extremes(a);
    Extremes(b);
  }

  lemma SameStop(a: seq<Report>, b: seq<Report>)
    requires a != [] && b != [] && (forall r :: r in a <==> r in b)
    ensures StopOf(a) == StopOf(b)
  {
    Extremes(a);
    Extremes(b);
  }

  /** The same reports, in any order and any number of times each, leave the
      same last report, first report and stop. */
  lemma OrderDoesNotMatter(a: seq<Report>, b: seq<Report>)
    requires Agreeing(a) && a != [] && b != [] && (forall r :: r in a <==> r in b)
    ensures Fold(None, a).Some? && Fold(None, b).Some?
    ensures var x, y := Fold(None, a).value, Fold(None, b).value;
            x.last == y.last && x.first == y.first && x.stop == y.stop
  {
    AgreeingFold(a, a);
    AgreeingFold(b, a);
    SameExtremes(a, b);
    SameStop(a, b);
  }

  // -- an address's sessions ------------------------------------------------

  type Table = map<string, Session>

  ghost predicate WellKeptTable(table: Table) {
    forall key <- table :: WellKept(table[key].signIns)
  }

  /** Dropped are sessions last reported before the cutoff, and of the rest
      all but the `keep` most recently reported, ties broken as may be. */
  ghost predicate Pruned(before: Table, after: Table, cutoff: Time, keep: nat) {
    && after.Keys <= before.Keys && (forall key <- after :: after[key] == before[key])
    && (|before| <= 1 ==> after == before)
    && (|before| > 1 ==> |after| <= keep && forall key <- after :: after[key].core.last >= cutoff)
    && (forall gone <- before.Keys - after.Keys ::
          before[gone].core.last < cutoff
          || (|after| == keep && forall key <- after :: after[key].core.last >= before[gone].core.last))
  }

  /** The same, while more than so many may be left. */
  ghost predicate Pruning(before: Table, now: Table, cutoff: Time, keep: nat) {
    && now.Keys <= before.Keys && (forall key <- now :: now[key] == before[key] && now[key].core.last >= cutoff)
    && (forall gone <- before.Keys - now.Keys ::
          before[gone].core.last < cutoff
          || (|now| >= keep && forall key <- now :: now[key].core.last >= before[gone].core.last))
  }

  lemma DropOldest(before: Table, now: Table, oldest: string, cutoff: Time, keep: nat)
    requires Pruning(before, now, cutoff, keep) && |now| > keep
    requires oldest in now && forall key <- now :: now[oldest].core.last <= now[key].core.last
    ensures Pruning(before, now - {oldest}, cutoff, keep)
  {
    var next := now - {oldest};
    assert now.Keys == next.Keys + {oldest};
    forall gone <- before.Keys - next.Keys
      ensures before[gone].core.last < cutoff
              || (|next| >= keep && forall key <- next :: next[key].core.last >= before[gone].core.last)
    {
      if gone != oldest { assert gone in before.Keys - now.Keys; }
    }
  }

  /** The sign-ins a session goes on with: none if its id is used anew. */
  function SignInsOf(before: Table, key: string, r: Report): seq<SignIn> {
    if key in before && !Reuses(before[key].core, r) then before[key].signIns else []
  }

  ghost predicate Leaves(before: Table, key: string, session: Session, r: Report, after: Table, keepSeconds: nat) {
    && WellKept(session.signIns)
    && SignIns.Updated(session.signIns, SignInsOf(before, key, r), r.klass, r.user, r.signed, r.signin,
                       session.core.start, r.seen)
    && Pruned(before[key := session], after, r.seen - keepSeconds * 1_000_000, MAX_SESSIONS)
  }

  /** What recording one report may do to an address's sessions. */
  ghost predicate Recorded(before: Table, key: string, r: Report, after: Table, keepSeconds: nat) {
    var was := if key in before then Some(before[key].core) else None;
    var now := After(was, r);
    if now.None? then after == before
    else exists signIns :: Leaves(before, key, Session(now.value, signIns), r, after, keepSeconds)
  }

  class Sessions {
    var table: Table
    const keepSeconds: nat
    const grace: Time

    constructor (keepSeconds: nat, grace: Time)
      ensures table == map[] && this.keepSeconds == keepSeconds && this.grace == grace
    {
      table, this.keepSeconds, this.grace := map[], keepSeconds, grace;
    }

    /** Drops what is old, then the least recently reported while there are too many. */
    method Prune(cutoff: Time, keep: nat)
      modifies this`table
      ensures Pruned(old(table), table, cutoff, keep)
    {
      if |table| <= 1 { return; }
      ghost var before := table;
      table := map key | key in table && table[key].core.last >= cutoff :: table[key];
      while |table| > keep
        invariant Pruning(before, table, cutoff, keep)
        decreases |table|
      {
        var oldest := Oldest();
        assert table.Keys == (table - {oldest}).Keys + {oldest};
        DropOldest(before, table, oldest, cutoff, keep);
        table := table - {oldest};
      }
    }

    method Oldest() returns (oldest: string)
      requires table != map[]
      ensures oldest in table && forall key <- table :: table[oldest].core.last <= table[key].core.last
    {
      oldest :| oldest in table;
      var left := table.Keys - {oldest};
      while left != {}
        invariant left <= table.Keys && oldest in table
        invariant forall key <- table.Keys - left :: table[oldest].core.last <= table[key].core.last
        decreases |left|
      {
        var key :| key in left;
        if table[key].core.last < table[oldest].core.last { oldest := key; }
        left := left - {key};
      }
    }

    /** Merges one report into the address's sessions, and says whether it was recorded. */
    method Record(key: string, r: Report) returns (recorded: bool)
      requires WellKeptTable(table)
      modifies this`table
      ensures WellKeptTable(table)
      ensures Recorded(old(table), key, r, table, keepSeconds)
      ensures !recorded <==> key in old(table) && Ignored(old(table)[key].core, r)
    {
      ghost var before := table;
      var held := if key in table then Some(table[key].core) else None;
      var value := Merge(held, r);
      if value.None? { return false; }
      var same := held.Some? && !(r.timed && r.start > held.value.last + CLOCK_SLACK);
      var periods := if same then table[key].signIns else [];
      var signIns := SignIns.Update(periods, r.klass, r.user, r.signed, r.signin, value.value.start, r.seen);
      table := table[key := Session(value.value, signIns)];
      Prune(r.seen - keepSeconds * 1_000_000, MAX_SESSIONS);
      assert Leaves(before, key, Session(After(held, r).value, signIns), r, table, keepSeconds);
      recorded := true;
    }

    /** The address's sessions, in some order. */
    method Listed() returns (sessions: seq<Session>)
      ensures Lists(sessions, table)
    {
      sessions := [];
      var left := table.Keys;
      while left != {}
        invariant left <= table.Keys
        invariant forall s <- sessions :: exists key <- table.Keys - left :: table[key] == s
        invariant forall key <- table.Keys - left :: table[key] in sessions
        decreases |left|
      {
        var key :| key in left;
        ghost var before := sessions;
        sessions := sessions + [table[key]];
        assert sessions[|before|] in sessions && forall s <- before :: s in sessions;
        left := left - {key};
        assert key in table.Keys - left;
      }
    }

    /** Who held the address at a time, by the sessions kept. */
    method HolderOf(when: Time) returns (found: Option<(Session, string)>, ghost sessions: seq<Session>)
      ensures Lists(sessions, table) && Chosen(found, sessions, grace, when)
    {
      var read := Listed();
      found := Holder(read, when);
      sessions := read;
    }

    /** Holder's choice among the sessions, in the order they are read. */
    method Holder(sessions: seq<Session>, when: Time) returns (found: Option<(Session, string)>)
      ensures Chosen(found, sessions, grace, when)
    {
      var best: Option<Session> := None;
      for i := 0 to |sessions|
        invariant best.None? <==> forall s <- sessions[..i] :: !Candidate(s, sessions, grace, when)
        invariant best.Some? ==> best.value in sessions[..i] && Candidate(best.value, sessions, grace, when)
        invariant best.Some? ==> forall s <- sessions[..i] | Candidate(s, sessions, grace, when) ::
                                   NotAbove(s.core, best.value.core, when)
      {
        assert sessions[..i + 1] == sessions[..i] + [sessions[i]];
        var candidate := IsCandidate(sessions[i], sessions, when);
        if candidate {
          NotAboveSelf(sessions[i].core, when);
          if best.None? {
            best := Some(sessions[i]);
          } else if !NotAbove(sessions[i].core, best.value.core, when) {
            NotAboveTotal(sessions[i].core, best.value.core, when);
            forall s <- sessions[..i] | Candidate(s, sessions, grace, when)
              ensures NotAbove(s.core, sessions[i].core, when)
            {
              NotAboveTransitive(s.core, best.value.core, sessions[i].core, when);
            }
            best := Some(sessions[i]);
          }
        }
      }
      assert sessions[..|sessions|] == sessions;
      if best.None? { return None; }
      var name := NameFor(best.value, sessions, when);
      found := Some((best.value, name));
    }

    method IsCandidate(held: Session, sessions: seq<Session>, when: Time) returns (candidate: bool)
      ensures candidate <==> Candidate(held, sessions, grace, when)
    {
      if !Covers(held.core, grace, when) { return false; }
      if !held.core.bridged { return true; }
      for i := 0 to |sessions|
        invariant forall other <- sessions[..i] :: !Overrules(other.core, held.core, when)
      {
        if Overrules(sessions[i].core, held.core, when) { return false; }
      }
      assert sessions[..|sessions|] == sessions;
      candidate := true;
    }

    /** Its own sign-in's name; failing that, one lent by the same device under the same Class. */
    method NameFor(best: Session, sessions: seq<Session>, when: Time) returns (name: string)
      ensures NamedBy(name, best, sessions, grace, when)
    {
      var own := NameAt(best, when);
      name := own.0;
      if name != "" || best.core.mac == "" || own.1 == [] { return; }
      for i := 0 to |sessions|
        invariant name == "" && forall other <- sessions[..i] :: !Lends(other, best, grace, when)
      {
        if Lends(sessions[i], best, grace, when) {
          return NameAt(sessions[i], when).0;
        }
      }
      assert sessions[..|sessions|] == sessions;
    }
  }

  // -- the lookup's terms ---------------------------------------------------

  /** When a session's hold ends: at its stop, or a grace after its last report. */
  function EndOf(core: Core, grace: Time): Time {
    match core.stop
    case Running => core.last + grace
    case Inferred(at) => Min(at, core.last + grace)
    case Real(at) => Min(at, core.last + grace)
  }

  predicate Covers(core: Core, grace: Time, when: Time) {
    core.start - CLOCK_SLACK <= when <= EndOf(core, grace)
  }

  /** Another device was reported with the address after this roamed session's own last was. */
  predicate Overrules(other: Core, held: Core, when: Time) {
    && !other.bridged && other.start - CLOCK_SLACK <= when
    && other.mac != held.mac && other.last > (if held.reported.Some? then held.reported.value else held.start)
  }

  predicate Candidate(held: Session, sessions: seq<Session>, grace: Time, when: Time) {
    && Covers(held.core, grace, when)
    && (held.core.bridged ==> forall other <- sessions :: !Overrules(other.core, held.core, when))
  }

  /** These are all the sessions of the table, and no others. */
  ghost predicate Lists(sessions: seq<Session>, table: Table) {
    && (forall s <- sessions :: exists key <- table :: table[key] == s)
    && (forall key <- table :: table[key] in sessions)
  }

  /** What holder may answer: nobody when there is no candidate, and otherwise
      a candidate no other is above, by its own name or a lent one. */
  ghost predicate Chosen(found: Option<(Session, string)>, sessions: seq<Session>, grace: Time, when: Time) {
    && (found.None? <==> forall s <- sessions :: !Candidate(s, sessions, grace, when))
    && (found.Some? ==>
          && found.value.0 in sessions && Candidate(found.value.0, sessions, grace, when)
          && (forall s <- sessions | Candidate(s, sessions, grace, when) :: NotAbove(s.core, found.value.0.core, when))
          && NamedBy(found.value.1, found.value.0, sessions, grace, when))
  }

  /** Reported with the address at the time. */
  predicate Confirmed(core: Core, when: Time) {
    var since := if core.bridged then core.reported else core.first;
    since.Some? && since.value - CLOCK_SLACK <= when <= core.last + CLOCK_SLACK
  }

  /** The order of names, by character. */
  predicate TextUpTo(a: string, b: string) {
    a == "" || (b != "" && (a[0] < b[0] || (a[0] == b[0] && TextUpTo(a[1..], b[1..]))))
  }

  /** Ranked by whether it is confirmed, then start, last report and name. */
  predicate NotAbove(a: Core, b: Core, when: Time) {
    if Confirmed(a, when) != Confirmed(b, when) then Confirmed(b, when)
    else if a.start != b.start then a.start < b.start
    else if a.last != b.last then a.last < b.last
    else TextUpTo(a.user, b.user)
  }

  lemma {:induction false} TextSelf(a: string)
    ensures TextUpTo(a, a)
  {
    if a != "" { TextSelf(a[1..]); }
  }

  lemma {:induction false} TextTotal(a: string, b: string)
    ensures TextUpTo(a, b) || TextUpTo(b, a)
  {
    if a != "" && b != "" { TextTotal(a[1..], b[1..]); }
  }

  lemma {:induction false} TextTransitive(a: string, b: string, c: string)
    requires TextUpTo(a, b) && TextUpTo(b, c)
    ensures TextUpTo(a, c)
  {
    if a != "" && b[0] == a[0] && c[0] == b[0] { TextTransitive(a[1..], b[1..], c[1..]); }
  }

  lemma NotAboveSelf(a: Core, when: Time)
    ensures NotAbove(a, a, when)
  {
    TextSelf(a.user);
  }

  lemma NotAboveTotal(a: Core, b: Core, when: Time)
    ensures NotAbove(a, b, when) || NotAbove(b, a, when)
  {
    TextTotal(a.user, b.user);
  }

  lemma NotAboveTransitive(a: Core, b: Core, c: Core, when: Time)
    requires NotAbove(a, b, when) && NotAbove(b, c, when)
    ensures NotAbove(a, c, when)
  {
    if TextUpTo(a.user, b.user) && TextUpTo(b.user, c.user) { TextTransitive(a.user, b.user, c.user); }
  }

  /** The name and Classes in force at a time; a session without sign-ins has its one name. */
  function NameAt(s: Session, when: Time): (string, seq<string>) {
    if s.signIns == [] then (s.core.user, if s.core.klass == "" then [] else [s.core.klass])
    else match SignIns.InForceAt(s.signIns, s.core.start, when)
         case Nobody => ("", [])
         case Somebody(signin) => (signin.user, signin.classes)
  }

  predicate Lends(other: Session, best: Session, grace: Time, when: Time) {
    && Covers(other.core, grace, when) && NameAt(other, when).0 != "" && other.core.mac == best.core.mac
    && exists c <- NameAt(best, when).1 :: c in NameAt(other, when).1
  }

  predicate NamedBy(name: string, best: Session, sessions: seq<Session>, grace: Time, when: Time) {
    || (name == NameAt(best, when).0
        && (name != "" || best.core.mac == "" || NameAt(best, when).1 == []
            || forall other <- sessions :: !Lends(other, best, grace, when)))
    || (NameAt(best, when).0 == "" && best.core.mac != ""
        && exists other <- sessions :: Lends(other, best, grace, when) && name == NameAt(other, when).0)
  }

  // -- a stopped session ----------------------------------------------------

  /** A history of one address: each table from the one before by one report. */
  ghost predicate History(tables: seq<Table>, reports: seq<(string, Report)>, keepSeconds: nat)
    decreases |reports|
  {
    && |tables| == |reports| + 1
    && (reports == [] ||
        var k := |reports| - 1;
        && History(tables[..k + 1], reports[..k], keepSeconds)
        && Recorded(tables[k], reports[k].0, reports[k].1, tables[k + 1], keepSeconds))
  }

  /** The session is neither pruned nor has its id reused. */
  ghost predicate Lasts(tables: seq<Table>, reports: seq<(string, Report)>, key: string)
    requires |tables| == |reports| + 1
    decreases |reports|
  {
    && key in tables[|reports|]
    && (reports == [] ||
        var k := |reports| - 1;
        && Lasts(tables[..k + 1], reports[..k], key)
        && key in tables[k] && (reports[k].0 == key ==> !Reuses(tables[k][key].core, reports[k].1)))
  }

  /** The latest real stop recorded for a session by the end, `e` being the one at the start. */
  function LatestStop(tables: seq<Table>, reports: seq<(string, Report)>, key: string, e: Time): Time
    requires |tables| == |reports| + 1
    decreases |reports|
  {
    if reports == [] then e
    else
      var k := |reports| - 1;
      var before := LatestStop(tables[..k + 1], reports[..k], key, e);
      var r := reports[k].1;
      if reports[k].0 == key && key in tables[k] && !Ignored(tables[k][key].core, r) && r.Stop().Real?
      then Max(before, r.stopped.value) else before
  }

  lemma RecordedLeaves(before: Table, k: string, r: Report, after: Table, keepSeconds: nat, key: string)
    requires Recorded(before, k, r, after, keepSeconds) && key in before && key in after
    ensures key != k ==> after[key] == before[key]
    ensures key == k ==> after[key].core == (var now := After(Some(before[key].core), r);
                                             if now.None? then before[key].core else now.value)
  {
    var was := if k in before then Some(before[k].core) else None;
    var now := After(was, r);
    if now.Some? {
      var signIns :| Leaves(before, k, Session(now.value, signIns), r, after, keepSeconds);
      assert key in after;
    }
  }

  /** What one report does to a stopped session it does not start anew. */
  lemma StoppedStep(c: Core, r: Report)
    requires c.stop.Real? && !Reuses(c, r)
    ensures var now := After(Some(c), r);
            var next := if now.None? then c else now.value;
            && next.stop == Real(if !Ignored(c, r) && r.Stop().Real? then Max(c.stop.at, r.stopped.value)
                                 else c.stop.at)
            && next.last >= c.last
  {
  }

  lemma StaysStopped(before: Table, k: string, r: Report, after: Table, keepSeconds: nat, key: string)
    requires Recorded(before, k, r, after, keepSeconds) && key in before && key in after
    requires before[key].core.stop.Real? && (k == key ==> !Reuses(before[key].core, r))
    ensures var c := before[key].core;
            && after[key].core.stop
               == Real(if k == key && !Ignored(c, r) && r.Stop().Real? then Max(c.stop.at, r.stopped.value)
                                            else c.stop.at)
            && after[key].core.last >= c.last
  {
    RecordedLeaves(before, k, r, after, keepSeconds, key);
    if k == key { StoppedStep(before[key].core, r); }
  }

  /** Once a real stop is recorded for a session, whatever is reported after
      it and in whatever order, the stop stays: it is the latest one recorded,
      the session's last report never goes back, and the session is not the
      holder for any lookup later than that stop. */
  lemma {:induction false} StopStays(tables: seq<Table>, reports: seq<(string, Report)>, keepSeconds: nat, key: string,
                                     grace: Time, when: Time)
    requires History(tables, reports, keepSeconds) && Lasts(tables, reports, key)
    requires key in tables[0] && tables[0][key].core.stop.Real?
    ensures var e := LatestStop(tables, reports, key, tables[0][key].core.stop.at);
            var now := tables[|reports|][key].core;
            && now.stop == Real(e) && e >= tables[0][key].core.stop.at && now.last >= tables[0][key].core.last
            && (when > e ==> !Covers(now, grace, when))
    decreases |reports|
  {
    if reports != [] {
      var k := |reports| - 1;
      StopStays(tables[..k + 1], reports[..k], keepSeconds, key, grace, when);
      StaysStopped(tables[k], reports[k].0, reports[k].1, tables[k + 1], keepSeconds, key);
    }
  }

  /** So of the address's sessions as they then are, in whatever order they
      are read, that one is never found for a lookup later than its stop. */
  lemma StoppedNeverFound(tables: seq<Table>, reports: seq<(string, Report)>, keepSeconds: nat, key: string,
                          grace: Time, when: Time, sessions: seq<Session>, found: Option<(Session, string)>)
    requires History(tables, reports, keepSeconds) && Lasts(tables, reports, key)
    requires key in tables[0] && tables[0][key].core.stop.Real?
    requires Lists(sessions, tables[|reports|]) && Chosen(found, sessions, grace, when)
    requires when > LatestStop(tables, reports, key, tables[0][key].core.stop.at)
    ensures tables[|reports|][key] in sessions
    ensures found.Some? ==> found.value.0 != tables[|reports|][key]
  {
    StopStays(tables, reports, keepSeconds, key, grace, when);
  }
}
