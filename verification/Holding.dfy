/** What recording reports and looking up who held an address come to, told by
    times, names and devices alone: libtb.radius's rules as an operator reads them. */
module Holding {
  import opened Wrappers
  import opened SignIns
  import opened Radius

  /** A minute, which clocks may differ by. */
  const MINUTE: Time := 60_000_000

  // -- one report ------------------------------------------------------------

  /** What a report leaves of a session it does not begin anew. */
  function Next(c: Core, r: Report): Core {
    if After(Some(c), r).None? then c else After(Some(c), r).value
  }

  /** Of a session known to have started over a minute after this one was last reported. */
  predicate Anew(c: Core, r: Report) {
    r.timed && r.start > c.last + MINUTE
  }

  /** Only a report from over a minute before a known start is refused. */
  lemma RefusedIfEarlier(c: Core, r: Report)
    ensures After(Some(c), r).None? <==> c.timed && r.seen < c.start - MINUTE
    ensures !(c.timed && r.seen < c.start - MINUTE) && Anew(c, r) ==> After(Some(c), r) == After(None, r)
    ensures Reuses(c, r) <==> Anew(c, r)
  {
  }

  /** A session begins as its first report says, a roam's without a first report of its own. */
  lemma BeginsAsReported(r: Report)
    ensures var c := After(None, r).value;
            && After(None, r).Some? && c.start == r.start && c.timed == r.timed && c.last == r.seen
            && c.user == r.user && c.mac == r.mac && c.klass == r.klass && c.signed == r.signed
            && c.bridged == r.bridged && c.first == (if r.bridged then None else Some(r.seen))
            && c.reported == (if r.bridged then r.reported else None)
            && (c.stop.Running? <==> r.stopped.None?) && (!c.stop.Running? ==> Some(c.stop.at) == r.stopped)
            && (c.stop.Inferred? ==> r.moved) && (c.stop.Real? ==> !r.moved)
  {
  }

  /** A known start never changes; an unknown one only gives way to a known one, and only back. */
  lemma StartStep(c: Core, r: Report)
    requires !Anew(c, r)
    ensures var d := Next(c, r);
            && (d.timed <==> c.timed || r.timed)
            && (c.timed || !r.timed ==> d.start == c.start)
            && (!c.timed && r.timed ==> d.start == Min(c.start, r.start))
            && d.last >= c.last
  {
  }

  /** A report that names nobody changes no name, nor one without a device the device. */
  lemma SilentKeeps(c: Core, r: Report)
    requires !Anew(c, r)
    ensures var d := Next(c, r);
            && (r.user == "" && (r.klass == "" || r.klass == c.klass) ==>
                  d.user == c.user && d.signed == c.signed && d.klass == c.klass)
            && (r.mac == "" ==> d.mac == c.mac)
            && (!c.bridged ==> !d.bridged)
  {
  }

  /** Who is named by a report that is taken: anybody under another Class; under
      the same, or an unknown one, whom NPS authenticated before a device's word. */
  lemma NameStep(c: Core, r: Report)
    requires !Anew(c, r) && After(Some(c), r).Some?
    ensures var d := Next(c, r);
            && (r.klass != "" && c.klass != "" && r.klass != c.klass ==>
                  d.user == r.user && d.klass == r.klass && d.signed == (r.user != "" && r.signed))
            && (r.user != "" && (r.signed || !c.signed) ==> d.user == r.user && d.signed == r.signed)
            && (c.signed && !r.signed && (r.klass == "" || c.klass == "" || r.klass == c.klass) ==>
                  d.user == c.user && d.signed)
            && (r.mac != "" ==> d.mac == r.mac) && (!r.bridged ==> !d.bridged)
  {
  }

  /** How stops weigh. A real one stays, the latest of them counting; one
      inferred from a move gives way to a later report here, is the earlier of
      two, is not moved later by a real one, and counts for nothing where the
      session was reported here since. */
  lemma StopStep(c: Core, r: Report)
    requires !Anew(c, r) && After(Some(c), r).Some?
    ensures var d := Next(c, r);
            var told := if r.moved && r.stopped.Some? && c.last > r.stopped.value then None else r.stopped;
            && (c.stop.Running? && told.None? ==> d.stop.Running?)
            && (c.stop.Running? && told.Some? ==> d.stop == if r.moved then Inferred(told.value) else Real(told.value))
            && (c.stop.Inferred? && told.None? ==> d.stop == if r.seen > c.stop.at then Running else c.stop)
            && (c.stop.Inferred? && told.Some? ==>
                  d.stop == (var t := Min(c.stop.at, told.value); if r.moved then Inferred(t) else Real(t)))
            && (c.stop.Real? ==> d.stop == if told.Some? && !r.moved then Real(Max(c.stop.at, told.value)) else c.stop)
            && (c.stop.Inferred? && told.Some? && !r.moved && told.value > c.stop.at ==> d.last == c.last)
            && (!(c.stop.Inferred? && told.Some? && !r.moved && told.value > c.stop.at) ==>
                  d.last == Max(c.last, r.seen))
  {
  }

  /** A roam's report is no report with the address, and an address once
      reported is no roam's any more; of a roam, when its device last gave the address. */
  lemma RoamStep(c: Core, r: Report)
    requires !Anew(c, r) && After(Some(c), r).Some?
    ensures var d := Next(c, r);
            && (d.bridged <==> c.bridged && r.bridged)
            && (r.bridged ==> d.first == c.first)
            && (!r.bridged ==> d.first == Some(if c.first.None? then r.seen else Min(c.first.value, r.seen)))
            && (!d.bridged ==> d.reported == None)
            && (d.bridged ==> d.reported == if r.reported.Some? then r.reported else c.reported)
  {
  }

  // -- any reports -------------------------------------------------------------

  lemma NextInHistory(before: Table, k: string, r: Report, after: Table, keepSeconds: nat, key: string)
    requires Recorded(before, k, r, after, keepSeconds) && key in before && key in after
    requires k == key ==> !Reuses(before[key].core, r)
    ensures after[key].core == if key == k then Next(before[key].core, r) else before[key].core
    ensures k == key ==> !Anew(before[key].core, r)
  {
    RecordedLeaves(before, k, r, after, keepSeconds, key);
    RefusedIfEarlier(before[key].core, r);
  }

  /** While an id lasts: a known start is kept for good, any start only moves
      back and only as long as it is not known, the last report only moves on,
      and an address the session reported itself does not become a roam's. */
  lemma {:induction false} StartStays(tables: seq<Table>, reports: seq<(string, Report)>, keepSeconds: nat, key: string)
    requires History(tables, reports, keepSeconds) && Lasts(tables, reports, key) && key in tables[0]
    ensures var was, now := tables[0][key].core, tables[|reports|][key].core;
            && (was.timed ==> now.timed && now.start == was.start)
            && now.start <= was.start && now.last >= was.last
            && (now.start < was.start ==> now.timed)
            && (!was.bridged ==> !now.bridged)
    decreases |reports|
  {
    if reports != [] {
      var k := |reports| - 1;
      StartStays(tables[..k + 1], reports[..k], keepSeconds, key);
      NextInHistory(tables[k], reports[k].0, reports[k].1, tables[k + 1], keepSeconds, key);
      if reports[k].0 == key {
        StartStep(tables[k][key].core, reports[k].1);
        SilentKeeps(tables[k][key].core, reports[k].1);
      }
    }
  }

  /** A time a session held the address stays one as long as it is still running, whatever is reported since. */
  lemma HeldStaysHeld(tables: seq<Table>, reports: seq<(string, Report)>, keepSeconds: nat, key: string,
                      grace: nat, when: Time)
    requires History(tables, reports, keepSeconds) && Lasts(tables, reports, key) && key in tables[0]
    requires Covers(tables[0][key].core, grace, when) && tables[|reports|][key].core.stop.Running?
    ensures Covers(tables[|reports|][key].core, grace, when)
  {
    StartStays(tables, reports, keepSeconds, key);
  }

  /** Every report of the session names the Class it is under, or none, and says only what its device says. */
  predicate DeviceSays(reports: seq<(string, Report)>, key: string, klass: string) {
    forall i | 0 <= i < |reports| && reports[i].0 == key ::
      !reports[i].1.signed && (reports[i].1.klass == "" || reports[i].1.klass == klass)
  }

  /** A name NPS authenticated stays the session's, whatever its device says under the same Class. */
  lemma {:induction false} SignedStays(tables: seq<Table>, reports: seq<(string, Report)>, keepSeconds: nat,
                                       key: string)
    requires History(tables, reports, keepSeconds) && Lasts(tables, reports, key) && key in tables[0]
    requires tables[0][key].core.signed && DeviceSays(reports, key, tables[0][key].core.klass)
    ensures var was, now := tables[0][key].core, tables[|reports|][key].core;
            now.user == was.user && now.signed && now.klass == was.klass
    decreases |reports|
  {
    if reports != [] {
      var k := |reports| - 1;
      assert forall i | 0 <= i < k :: reports[..k][i] == reports[i];
      SignedStays(tables[..k + 1], reports[..k], keepSeconds, key);
      NextInHistory(tables[k], reports[k].0, reports[k].1, tables[k + 1], keepSeconds, key);
      if reports[k].0 == key && After(Some(tables[k][key].core), reports[k].1).Some? {
        NameStep(tables[k][key].core, reports[k].1);
      }
    }
  }

  /** A session goes on with the sign-ins it has; one begun anew, or the first of its id, with none. */
  lemma SignInsGoOn(before: Table, r: Report, after: Table, keepSeconds: nat, key: string)
    requires Recorded(before, key, r, after, keepSeconds) && key in after && r.klass == ""
    ensures after[key].signIns
            == if key in before && (After(Some(before[key].core), r).None? || !Anew(before[key].core, r))
               then before[key].signIns else []
  {
    var was := if key in before then Some(before[key].core) else None;
    var now := After(was, r);
    if now.Some? {
      var signIns :| Leaves(before, key, Session(now.value, signIns), r, after, keepSeconds);
      assert after[key] == before[key := Session(now.value, signIns)][key];
    }
    if key in before { RefusedIfEarlier(before[key].core, r); }
  }

  // -- the lookup ----------------------------------------------------------------

  /** From a minute before its start until a grace after its last report, and not beyond a stop. */
  predicate MayHold(c: Core, grace: Time, when: Time) {
    c.start - MINUTE <= when <= c.last + grace && (c.stop.Running? || when <= c.stop.at)
  }

  /** The session gave the address itself, by then and again no earlier, to within a minute. */
  predicate Reported(c: Core, when: Time) {
    && !c.bridged && c.first.Some?
    && c.first.value - MINUTE <= when <= c.last + MINUTE
  }

  /** Taken over on roaming, from a session that had given it by then. */
  predicate RoamReported(c: Core, when: Time) {
    && c.bridged && c.reported.Some?
    && c.reported.value - MINUTE <= when <= c.last + MINUTE
  }

  /** Whoever is found may have held the address then, and somebody is found if a session that did not roam may have. */
  lemma FoundMayHold(found: Option<(Session, string)>, sessions: seq<Session>, grace: Time, when: Time)
    requires Chosen(found, sessions, grace, when)
    ensures found.Some? ==> found.value.0 in sessions && MayHold(found.value.0.core, grace, when)
    ensures forall s <- sessions | !s.core.bridged && MayHold(s.core, grace, when) :: found.Some?
  {
    forall s <- sessions | !s.core.bridged && MayHold(s.core, grace, when) ensures found.Some? {
      assert Candidate(s, sessions, grace, when);
    }
  }

  /** Of the sessions that may have held the address without roaming there: if
      one gave the address around that time, so did the one found, and it
      started no earlier; if none did, none started later than the one found. */
  lemma LaterStartWins(found: Option<(Session, string)>, sessions: seq<Session>, grace: Time, when: Time, s: Session)
    requires Chosen(found, sessions, grace, when)
    requires s in sessions && !s.core.bridged && MayHold(s.core, grace, when)
    ensures found.Some?
    ensures var b, c := found.value.0.core, s.core;
            && (Reported(c, when) ==> Reported(b, when) || RoamReported(b, when))
            && (Reported(c, when) || !(Reported(b, when) || RoamReported(b, when)) ==>
                  b.start > c.start || (b.start == c.start && b.last >= c.last))
  {
    assert Candidate(s, sessions, grace, when);
    assert NotAbove(s.core, found.value.0.core, when);
  }

  /** A session that roamed to the address loses it to another device given it
      since its own last was, whether or not that one holds it still. */
  lemma RoamYields(found: Option<(Session, string)>, sessions: seq<Session>, grace: Time, when: Time, other: Session)
    requires Chosen(found, sessions, grace, when) && found.Some? && found.value.0.core.bridged
    requires other in sessions && !other.core.bridged && other.core.start - MINUTE <= when
    requires other.core.mac != found.value.0.core.mac
    ensures var b := found.value.0.core;
            other.core.last <= if b.reported.Some? then b.reported.value else b.start
  {
    assert !Overrules(other.core, found.value.0.core, when);
  }

  /** A session that roamed there is found if nobody else may have held the address and no other device came since. */
  lemma RoamFound(found: Option<(Session, string)>, sessions: seq<Session>, grace: Time, when: Time, s: Session)
    requires Chosen(found, sessions, grace, when) && s in sessions && MayHold(s.core, grace, when)
    requires var since := if s.core.reported.Some? then s.core.reported.value else s.core.start;
             forall o <- sessions ::
               o.core.bridged || o.core.mac == s.core.mac || o.core.start - MINUTE > when || o.core.last <= since
    ensures found.Some?
  {
    assert Candidate(s, sessions, grace, when);
  }

  /** The name and Classes of a session at a time: those of the sign-in begun
      last by then; before the first, those of the first if it began with the
      session; and its one name if it has no sign-ins. */
  lemma NameAtIs(s: Session, when: Time)
    requires Sorted(s.signIns)
    ensures s.signIns == [] ==> NameAt(s, when) == (s.core.user, if s.core.klass != "" then [s.core.klass] else [])
    ensures s.signIns != [] && s.signIns[0].from <= when ==>
              exists p <- s.signIns :: NameAt(s, when) == (p.user, p.classes) && p.from <= when
                                       && forall q <- s.signIns | q.from <= when :: q.from <= p.from
    ensures s.signIns != [] && s.signIns[0].from > when ==>
              NameAt(s, when) == if s.signIns[0].from > s.core.start + MINUTE then ("", [])
                                 else (s.signIns[0].user, s.signIns[0].classes)
  {
    if s.signIns != [] {
      BegunIsLatest(s.signIns, when);
      assert s.signIns[0] in s.signIns;
      if s.signIns[0].from > when { NoneBegun(s.signIns, when); }
    }
  }

  /** The name given is that in force of the session found; only where it has
      none is it that of another session of the same device, under a Class of
      its own, that may have held the address too. */
  lemma NameIsItsOwn(found: Option<(Session, string)>, sessions: seq<Session>, grace: Time, when: Time)
    requires Chosen(found, sessions, grace, when) && found.Some?
    ensures var (best, name) := found.value;
            && (NameAt(best, when).0 != "" ==> name == NameAt(best, when).0)
            && (name != NameAt(best, when).0 ==>
                  && best.core.mac != ""
                  && exists o <- sessions, c <- NameAt(best, when).1 ::
                       && c in NameAt(o, when).1 && o.core.mac == best.core.mac && name == NameAt(o, when).0
                       && MayHold(o.core, grace, when))
  {
    var (best, name) := found.value;
    if name != NameAt(best, when).0 {
      var o :| o in sessions && Lends(o, best, grace, when) && name == NameAt(o, when).0;
      var c :| c in NameAt(best, when).1 && c in NameAt(o, when).1;
      assert MayHold(o.core, grace, when);
    }
  }

  /** And it is nobody's only if no such session can lend one. */
  lemma NamelessOnlyIf(found: Option<(Session, string)>, sessions: seq<Session>, grace: Time, when: Time, o: Session)
    requires Chosen(found, sessions, grace, when) && found.Some? && found.value.1 == ""
    requires o in sessions && MayHold(o.core, grace, when) && o.core.mac == found.value.0.core.mac != ""
    requires exists c <- NameAt(found.value.0, when).1 :: c in NameAt(o, when).1
    ensures NameAt(o, when).0 == ""
  {
    if NameAt(o, when).0 != "" { assert Lends(o, found.value.0, grace, when); }
  }

  lemma {:induction false} SameText(a: string, b: string)
    requires TextUpTo(a, b) && TextUpTo(b, a)
    ensures a == b
  {
    if a != "" && b != "" {
      SameText(a[1..], b[1..]);
      assert a == [a[0]] + a[1..] && b == [b[0]] + b[1..];
    }
  }

  /** Ties go the same way everywhere: two workers that read the same sessions,
      each in its own order, find one with the same start, last report and name on record. */
  lemma SameEverywhere(found: Option<(Session, string)>, sessions: seq<Session>, found': Option<(Session, string)>,
                       sessions': seq<Session>, grace: Time, when: Time)
    requires Chosen(found, sessions, grace, when) && Chosen(found', sessions', grace, when)
    requires forall s :: s in sessions <==> s in sessions'
    ensures found.Some? <==> found'.Some?
    ensures found.Some? ==>
              var a, b := found.value.0.core, found'.value.0.core;
              a.start == b.start && a.last == b.last && a.user == b.user
  {
    forall s <- sessions ensures Candidate(s, sessions, grace, when) <==> Candidate(s, sessions', grace, when) {
    }
    if found.Some? && found'.Some? {
      var a, b := found.value.0.core, found'.value.0.core;
      assert NotAbove(a, b, when) && NotAbove(b, a, when);
      if a.start == b.start && a.last == b.last { SameText(a.user, b.user); }
    }
  }
}
