/** The sign-ins of one RADIUS session: who was signed in under which Class
    and from when, as RECORD_SCRIPT of libtb.radius keeps them. */
module SignIns {
  import opened Wrappers

  /** Microseconds since the epoch: as fine as the clocks read are. */
  type Time = int

  const MAX_SIGNINS: nat := 16
  const CLOCK_SLACK: Time := 60_000_000

  /** One sign-in: when it began, the Classes it goes by, the account, and
      whether NPS authenticated it. */
  datatype SignIn = SignIn(from: Time, classes: seq<string>, user: string, signed: bool)

  ghost predicate Sorted(list: seq<SignIn>) {
    forall i, j | 0 <= i < j < |list| :: list[i].from <= list[j].from
  }

  ghost predicate Disjoint(a: SignIn, b: SignIn) {
    forall c <- a.classes :: c !in b.classes
  }

  /** No Class is in two sign-ins. */
  ghost predicate Separate(list: seq<SignIn>) {
    forall i, j | 0 <= i < j < |list| :: Disjoint(list[i], list[j])
  }

  ghost predicate Bounded(list: seq<SignIn>) {
    forall s <- list :: 1 <= |s.classes| <= MAX_SIGNINS
  }

  predicate SamePerson(a: SignIn, b: SignIn) {
    a.user == b.user && a.signed == b.signed
  }

  /** Neighbours are different people, or differently known. */
  ghost predicate Alternating(list: seq<SignIn>) {
    forall i | 0 <= i < |list| - 1 :: !SamePerson(list[i], list[i + 1])
  }

  /** What every stored list keeps. */
  ghost predicate WellKept(list: seq<SignIn>) {
    Sorted(list) && Separate(list) && Bounded(list) && Alternating(list) && |list| <= MAX_SIGNINS
  }

  /** `sorted` is `list[..n]` rearranged: `order` says which came from where. */
  ghost predicate Rearranges(sorted: seq<SignIn>, order: seq<nat>, list: seq<SignIn>, n: nat) {
    && |order| == |sorted| == n <= |list|
    && (forall k | 0 <= k < n :: order[k] < n && sorted[k] == list[order[k]])
    && (forall i, j | 0 <= i < j < n :: order[i] != order[j])
  }

  lemma Inserted(sorted: seq<SignIn>, order: seq<nat>, list: seq<SignIn>, n: nat, at: nat)
    requires n < |list| && at <= n && Rearranges(sorted, order, list, n)
    ensures Rearranges(sorted[..at] + [list[n]] + sorted[at..], order[..at] + [n] + order[at..], list, n + 1)
  {
    var s, o := sorted[..at] + [list[n]] + sorted[at..], order[..at] + [n] + order[at..];
    forall k | 0 <= k < n + 1 ensures o[k] < n + 1 && s[k] == list[o[k]] {
      if k < at { assert s[k] == sorted[k]; } else if k > at { assert s[k] == sorted[k - 1]; }
    }
    forall i, j | 0 <= i < j < n + 1 ensures o[i] != o[j] {
      assert o[i] == if i < at then order[i] else if i == at then n else order[i - 1];
      assert o[j] == if j < at then order[j] else if j == at then n else order[j - 1];
    }
  }

  lemma InsertedSorted(sorted: seq<SignIn>, p: SignIn, at: nat)
    requires at <= |sorted| && Sorted(sorted)
    requires forall k | at <= k < |sorted| :: p.from < sorted[k].from
    requires at > 0 ==> sorted[at - 1].from <= p.from
    ensures Sorted(sorted[..at] + [p] + sorted[at..])
  {
    var s := sorted[..at] + [p] + sorted[at..];
    forall i, j | 0 <= i < j < |s| ensures s[i].from <= s[j].from {
      assert s[i] == if i < at then sorted[i] else if i == at then p else sorted[i - 1];
      assert s[j] == if j < at then sorted[j] else if j == at then p else sorted[j - 1];
    }
  }

  /** table.sort by start. Its order of equal starts is its own affair. */
  method SortByStart(list: seq<SignIn>) returns (sorted: seq<SignIn>, ghost order: seq<nat>)
    ensures Rearranges(sorted, order, list, |list|) && Sorted(sorted)
  {
    sorted, order := [], [];
    for i := 0 to |list|
      invariant Rearranges(sorted, order, list, i) && Sorted(sorted)
    {
      var at := i;
      while at > 0 && list[i].from < sorted[at - 1].from
        invariant 0 <= at <= i
        invariant forall k | at <= k < i :: list[i].from < sorted[k].from
      {
        at := at - 1;
      }
      Inserted(sorted, order, list, i, at);
      InsertedSorted(sorted, list[i], at);
      sorted := sorted[..at] + [list[i]] + sorted[at..];
      order := order[..at] + [i] + order[at..];
    }
  }

  /** Whether some sign-in goes by this Class, and which: the last such. */
  method FindClass(list: seq<SignIn>, klass: string) returns (at: Option<nat>)
    ensures at.Some? ==> at.value < |list| && klass in list[at.value].classes
    ensures at.None? ==> forall s <- list :: klass !in s.classes
  {
    at := None;
    for i := 0 to |list|
      invariant at.Some? ==> at.value < i && klass in list[at.value].classes
      invariant at.None? ==> forall s <- list[..i] :: klass !in s.classes
    {
      if klass in list[i].classes { at := Some(i); }
    }
    assert list[..|list|] == list;
  }

  /** The latest MAX_SIGNINS of a list. */
  function Latest<T>(list: seq<T>): seq<T> {
    list[Max(0, |list| - MAX_SIGNINS)..]
  }

  method TrimClasses(classes: seq<string>) returns (kept: seq<string>)
    ensures kept == Latest(classes)
  {
    kept := classes;
    while |kept| > MAX_SIGNINS
      invariant |kept| <= |classes| && kept == classes[|classes| - |kept|..]
      invariant |classes| <= MAX_SIGNINS ==> kept == classes
      invariant |classes| > MAX_SIGNINS ==> |kept| >= MAX_SIGNINS
    {
      kept := kept[1..];
    }
  }

  /** One sign-in after another taken in: the same person's goes into the last, under its Classes too. */
  function Merged(list: seq<SignIn>): seq<SignIn> {
    if list == [] then []
    else
      var n := |list| - 1;
      TakenIn(Merged(list[..n]), list[n])
  }

  function TakenIn(merged: seq<SignIn>, p: SignIn): seq<SignIn> {
    if merged != [] && SamePerson(merged[|merged| - 1], p) then
      var last := |merged| - 1;
      merged[last := merged[last].(classes := Latest(merged[last].classes + p.classes))]
    else merged + [p]
  }

  /** The merged sign-in began with one of the first `n`, and has only Classes the same person had in them. */
  ghost predicate FromFirst(s: SignIn, list: seq<SignIn>, n: nat)
    requires n <= |list|
  {
    && (exists k | 0 <= k < n :: s.from == list[k].from && SamePerson(s, list[k]))
    && forall c <- s.classes :: exists k | 0 <= k < n :: c in list[k].classes && SamePerson(s, list[k])
  }

  ghost predicate Merging(merged: seq<SignIn>, list: seq<SignIn>, n: nat)
    requires n <= |list|
  {
    && Sorted(merged) && Separate(merged) && Bounded(merged) && Alternating(merged)
    && (forall s <- merged :: FromFirst(s, list, n))
    && (merged == [] <==> n == 0) && (n > 0 ==> merged[0].from == list[0].from)
  }

  lemma NextIsLater(merged: seq<SignIn>, list: seq<SignIn>, n: nat, s: SignIn)
    requires n < |list| && Sorted(list) && Separate(list) && Merging(merged, list, n) && s in merged
    ensures Disjoint(s, list[n]) && s.from <= list[n].from
    ensures FromFirst(s, list, n + 1)
  {
    assert FromFirst(s, list, n);
    forall c <- s.classes ensures c !in list[n].classes {
      var k :| 0 <= k < n && c in list[k].classes;
      assert Disjoint(list[k], list[n]);
    }
  }

  lemma MergeOne(merged: seq<SignIn>, list: seq<SignIn>, n: nat, classes: seq<string>)
    requires n < |list| && Sorted(list) && Separate(list) && Bounded(list) && Merging(merged, list, n)
    requires merged != [] && SamePerson(merged[|merged| - 1], list[n])
    requires 1 <= |classes| <= MAX_SIGNINS
    requires forall c <- classes :: c in merged[|merged| - 1].classes || c in list[n].classes
    ensures Merging(merged[|merged| - 1 := merged[|merged| - 1].(classes := classes)], list, n + 1)
  {
    var last := |merged| - 1;
    var s := merged[last].(classes := classes);
    forall t <- merged ensures Disjoint(t, list[n]) && FromFirst(t, list, n + 1) { NextIsLater(merged, list, n, t); }
    assert merged[last] in merged;
    assert FromFirst(s, list, n + 1);
    var m := merged[last := s];
    forall t <- m ensures 1 <= |t.classes| <= MAX_SIGNINS && FromFirst(t, list, n + 1) {
      assert t == s || t in merged;
    }
    forall i, j | 0 <= i < j < |m| ensures Disjoint(m[i], m[j]) {
      assert Disjoint(merged[i], merged[j]) && merged[i] in merged;
    }
    assert last == 0 ==> s.from == merged[0].from;
  }

  lemma AppendOne(merged: seq<SignIn>, list: seq<SignIn>, n: nat)
    requires n < |list| && Sorted(list) && Separate(list) && Bounded(list) && Merging(merged, list, n)
    requires merged == [] || !SamePerson(merged[|merged| - 1], list[n])
    ensures Merging(merged + [list[n]], list, n + 1)
  {
    forall t <- merged ensures Disjoint(t, list[n]) && t.from <= list[n].from && FromFirst(t, list, n + 1) {
      NextIsLater(merged, list, n, t);
    }
    assert list[n] in list && FromFirst(list[n], list, n + 1);
    AppendKept(merged, list[n]);
    forall t <- merged + [list[n]] ensures FromFirst(t, list, n + 1) {
      assert t in merged || t == list[n];
    }
  }

  /** A later sign-in of another person, under Classes of its own, may follow. */
  lemma AppendKept(merged: seq<SignIn>, p: SignIn)
    requires Sorted(merged) && Separate(merged) && Bounded(merged) && Alternating(merged)
    requires 1 <= |p.classes| <= MAX_SIGNINS
    requires forall t <- merged :: Disjoint(t, p) && t.from <= p.from
    requires merged == [] || !SamePerson(merged[|merged| - 1], p)
    ensures Sorted(merged + [p]) && Separate(merged + [p]) && Bounded(merged + [p]) && Alternating(merged + [p])
  {
    assert forall i | 0 <= i < |merged| :: merged[i] in merged;
  }

  lemma MergingNext(merged: seq<SignIn>, list: seq<SignIn>, n: nat)
    requires n < |list| && Sorted(list) && Separate(list) && Bounded(list) && Merging(merged, list, n)
    ensures Merging(TakenIn(merged, list[n]), list, n + 1)
  {
    assert list[n] in list;
    if merged != [] && SamePerson(merged[|merged| - 1], list[n]) {
      assert merged[|merged| - 1] in merged;
      MergeOne(merged, list, n, Latest(merged[|merged| - 1].classes + list[n].classes));
    } else {
      AppendOne(merged, list, n);
    }
  }

  lemma MergedNext(list: seq<SignIn>, n: nat)
    requires n < |list|
    ensures Merged(list[..n + 1]) == TakenIn(Merged(list[..n]), list[n])
  {
    assert list[..n + 1][..n] == list[..n];
  }

  /** The same person signing in again is one sign-in, under each of its Classes. */
  method MergeNeighbours(list: seq<SignIn>) returns (merged: seq<SignIn>)
    requires Sorted(list) && Separate(list) && Bounded(list)
    ensures Merging(merged, list, |list|)
    ensures merged == Merged(list)
  {
    merged := [];
    for i := 0 to |list|
      invariant Merging(merged, list, i)
      invariant merged == Merged(list[..i])
    {
      MergingNext(merged, list, i);
      MergedNext(list, i);
      var last := |merged| - 1;
      if merged != [] && SamePerson(merged[last], list[i]) {
        var classes := TrimClasses(merged[last].classes + list[i].classes);
        merged := merged[last := merged[last].(classes := classes)];
      } else {
        merged := merged + [list[i]];
      }
    }
    assert list[..|list|] == list;
  }

  /** One report under a Class: the sign-in part of RECORD_SCRIPT. `signin` is
      when the Class's Access-Accept was logged, `start` the session's start
      and `reportedAt` the time of the report. */
  method Update(list: seq<SignIn>, klass: string, user: string, signed: bool, signin: Option<Time>,
                start: Time, reportedAt: Time) returns (kept: seq<SignIn>)
    requires WellKept(list)
    ensures WellKept(kept)
    ensures klass == "" ==> kept == list
    ensures klass != "" ==> kept != [] && Follows(kept, list, klass, user, signed)
    ensures Updated(kept, list, klass, user, signed, signin, start, reportedAt)
  {
    if klass == "" { return list; }
    var periods := Note(list, klass, user, signed, signin, start, reportedAt);
    ghost var order;
    var sorted;
    sorted, order := SortByStart(periods);
    SortKeeps(periods, sorted, order);
    var merged := MergeNeighbours(sorted);
    kept := Latest(merged);
    LatestWellKept(merged, sorted);
    assert Follows(kept, list, klass, user, signed) by {
      MergedIsDrawn(periods, sorted, order, merged);
      FollowDrawn(list, periods, kept, klass, user, signed);
    }
    assert Sorts(sorted, periods);
  }

  lemma LatestWellKept(merged: seq<SignIn>, list: seq<SignIn>)
    requires Merging(merged, list, |list|) && list != []
    ensures WellKept(Latest(merged)) && Latest(merged) != []
  {
    assert forall s <- Latest(merged) :: s in merged;
  }

  ghost predicate Sorts(sorted: seq<SignIn>, list: seq<SignIn>) {
    Sorted(sorted) && exists order :: Rearranges(sorted, order, list, |list|)
  }

  /** The report's sign-in is noted, all are put in the order of their starts,
      one person's neighbours become one, and the latest are kept. */
  ghost predicate Updated(kept: seq<SignIn>, list: seq<SignIn>, klass: string, user: string, signed: bool,
                          signin: Option<Time>, start: Time, reportedAt: Time) {
    if klass == "" then kept == list
    else exists periods, sorted ::
           && Adds(periods, list, klass, user, signed, signin, start, reportedAt)
           && Sorts(sorted, periods) && kept == Latest(Merged(sorted))
  }

  /** A sign-in known by the report's Class: a device's name does not replace
      an account NPS authenticated, and it began when its Access-Accept was logged if that is earlier. */
  function Renamed(p: SignIn, user: string, signed: bool, signin: Option<Time>): SignIn {
    var q := if user != "" && !(p.signed && !signed) then p.(user := user, signed := signed) else p;
    if signin.Some? && signin.value < q.from then q.(from := signin.value) else q
  }

  ghost predicate Adds(periods: seq<SignIn>, list: seq<SignIn>, klass: string, user: string, signed: bool,
                       signin: Option<Time>, start: Time, reportedAt: Time) {
    if exists p <- list :: klass in p.classes
    then exists i :: 0 <= i < |list| && klass in list[i].classes
                     && periods == list[i := Renamed(list[i], user, signed, signin)]
    else periods == list + [SignIn(if signin.Some? then signin.value else if list == [] then start else reportedAt,
                                   [klass], user, signed)]
  }

  /** What a report under a Class says about the person behind it: a name
      replaces the one there, except one a device gave an account NPS authenticated. */
  predicate Named(s: SignIn, before: Option<SignIn>, user: string, signed: bool) {
    match before
    case None => s.user == user && s.signed == signed
    case Some(p) => if user != "" && !(p.signed && !signed) then s.user == user && s.signed == signed
                    else SamePerson(s, p)
  }

  /** No Class is made up, every Class not merged with the reported one keeps
      its person, and the reported one gets the one it should. */
  ghost predicate Follows(kept: seq<SignIn>, list: seq<SignIn>, klass: string, user: string, signed: bool) {
    && (forall s <- kept, c <- s.classes :: c == klass ||
          exists p <- list :: c in p.classes && (SamePerson(s, p) || klass in p.classes))
    && (forall s <- kept | klass in s.classes ::
          if exists p <- list :: klass in p.classes
          then exists p <- list :: klass in p.classes && Named(s, Some(p), user, signed)
          else Named(s, None, user, signed))
  }

  /** The report's sign-in, noted where its Class is, or at the end. */
  method Note(list: seq<SignIn>, klass: string, user: string, signed: bool, signin: Option<Time>,
              start: Time, reportedAt: Time) returns (periods: seq<SignIn>)
    requires WellKept(list)
    ensures Separate(periods) && Bounded(periods) && periods != []
    ensures Follows(periods, list, klass, user, signed)
    ensures Adds(periods, list, klass, user, signed, signin, start, reportedAt)
  {
    periods := list;
    var at := FindClass(periods, klass);
    if at.Some? {
      var i := at.value;
      assert list[i] in list;
      if user != "" && !(periods[i].signed && !signed) {
        periods := periods[i := periods[i].(user := user, signed := signed)];
      }
      if signin.Some? && signin.value < periods[i].from {
        periods := periods[i := periods[i].(from := signin.value)];
      }
      Noted(list, i, periods[i], klass, user, signed);
      assert periods == list[i := Renamed(list[i], user, signed, signin)];
    } else {
      var from := if signin.Some? then signin.value else if |periods| == 0 then start else reportedAt;
      periods := periods + [SignIn(from, [klass], user, signed)];
    }
  }

  lemma Noted(list: seq<SignIn>, i: nat, s: SignIn, klass: string, user: string, signed: bool)
    requires WellKept(list) && i < |list| && klass in list[i].classes
    requires s.classes == list[i].classes && Named(s, Some(list[i]), user, signed)
    ensures Separate(list[i := s]) && Bounded(list[i := s])
    ensures Follows(list[i := s], list, klass, user, signed)
  {
    var periods := list[i := s];
    assert list[i] in list;
    forall j, k | 0 <= j < k < |periods| ensures Disjoint(periods[j], periods[k]) {
      assert Disjoint(list[j], list[k]);
    }
    forall t <- periods ensures t == s || (t in list && klass !in t.classes) {
      var j :| 0 <= j < |periods| && periods[j] == t;
      if j < i { assert Disjoint(list[j], list[i]); } else if j > i { assert Disjoint(list[i], list[j]); }
    }
  }

  /** Every Class has the person it had there. */
  ghost predicate Drawn(kept: seq<SignIn>, periods: seq<SignIn>) {
    forall s <- kept, c <- s.classes :: exists p <- periods :: c in p.classes && SamePerson(s, p)
  }

  lemma MergedIsDrawn(periods: seq<SignIn>, sorted: seq<SignIn>, order: seq<nat>, merged: seq<SignIn>)
    requires Rearranges(sorted, order, periods, |periods|) && Merging(merged, sorted, |sorted|)
    ensures Drawn(merged, periods)
  {
    forall s <- merged, c <- s.classes ensures exists p <- periods :: c in p.classes && SamePerson(s, p) {
      assert FromFirst(s, sorted, |sorted|);
      var k :| 0 <= k < |sorted| && c in sorted[k].classes && SamePerson(s, sorted[k]);
      assert periods[order[k]] in periods;
    }
  }

  lemma FollowDrawn(list: seq<SignIn>, periods: seq<SignIn>, kept: seq<SignIn>, klass: string, user: string,
                    signed: bool)
    requires Follows(periods, list, klass, user, signed) && Drawn(kept, periods)
    ensures Follows(kept, list, klass, user, signed)
  {
    forall s <- kept, c <- s.classes ensures c == klass ||
          exists p <- list :: c in p.classes && (SamePerson(s, p) || klass in p.classes)
    {
      var t :| t in periods && c in t.classes && SamePerson(s, t);
      if c != klass {
        var p :| p in list && c in p.classes && (SamePerson(t, p) || klass in p.classes);
      }
    }
    forall s <- kept | klass in s.classes ensures
          if exists p <- list :: klass in p.classes
          then exists p <- list :: klass in p.classes && Named(s, Some(p), user, signed)
          else Named(s, None, user, signed)
    {
      var t :| t in periods && klass in t.classes && SamePerson(s, t);
      if exists p <- list :: klass in p.classes {
        var p :| p in list && klass in p.classes && Named(t, Some(p), user, signed);
      }
    }
  }

  lemma SortKeeps(list: seq<SignIn>, sorted: seq<SignIn>, order: seq<nat>)
    requires Separate(list) && Bounded(list) && Rearranges(sorted, order, list, |list|)
    ensures Separate(sorted) && Bounded(sorted)
  {
    forall i, j | 0 <= i < j < |sorted| ensures Disjoint(sorted[i], sorted[j]) {
      if order[i] < order[j] {
        assert Disjoint(list[order[i]], list[order[j]]);
      } else {
        assert Disjoint(list[order[j]], list[order[i]]);
      }
    }
    forall s <- sorted ensures 1 <= |s.classes| <= MAX_SIGNINS {
      var i :| 0 <= i < |sorted| && sorted[i] == s;
      assert list[order[i]] in list;
    }
  }

  /** Who was signed in at a time, and under which Classes; ("", []) for nobody known. */
  datatype InForce = Nobody | Somebody(signin: SignIn)

  /** The last of the sign-ins that had begun. */
  function Begun(list: seq<SignIn>, when: Time): Option<SignIn> {
    if list == [] then None
    else var k := |list| - 1; if list[k].from <= when then Some(list[k]) else Begun(list[..k], when)
  }

  function InForceAt(list: seq<SignIn>, start: Time, when: Time): InForce
    requires list != []
  {
    match Begun(list, when)
    case Some(s) => Somebody(s)
    case None => if list[0].from > start + CLOCK_SLACK then Nobody else Somebody(list[0])
  }

  lemma {:induction false} NoneBegun(list: seq<SignIn>, when: Time)
    requires Sorted(list) && list != [] && when < list[0].from
    ensures Begun(list, when) == None
  {
    if |list| > 1 { NoneBegun(list[..|list| - 1], when); }
  }

  /** The sign-in begun last by a time is the one with the latest start up to it. */
  lemma {:induction false} BegunIsLatest(list: seq<SignIn>, when: Time)
    requires Sorted(list)
    ensures var found := Begun(list, when);
            if found.None? then forall s <- list :: s.from > when
            else found.value in list && found.value.from <= when
                 && forall s <- list :: s.from <= when ==> s.from <= found.value.from
  {
    if list != [] {
      var n := |list| - 1;
      BegunIsLatest(list[..n], when);
      LastIsLatest(list);
    }
  }

  lemma LastIsLatest(list: seq<SignIn>)
    requires Sorted(list) && list != []
    ensures var n := |list| - 1;
            forall s :: s in list <==> s in list[..n] || s == list[n]
    ensures forall s <- list[..|list| - 1] :: s.from <= list[|list| - 1].from
  {
    var n := |list| - 1;
    assert list == list[..n] + [list[n]];
    forall s <- list[..n] ensures s.from <= list[n].from {
      var i :| 0 <= i < n && list[i] == s;
    }
  }

  lemma InForceIs(list: seq<SignIn>, start: Time, when: Time)
    requires Sorted(list) && list != []
    ensures var found := InForceAt(list, start, when);
            && (when >= list[0].from ==>
                  && found.Somebody? && found.signin in list && found.signin.from <= when
                  && (forall s <- list :: s.from <= when ==> s.from <= found.signin.from))
            && (when < list[0].from ==>
                  Begun(list, when) == None
                  && found == if list[0].from > start + CLOCK_SLACK then Nobody else Somebody(list[0]))
  {
    BegunIsLatest(list, when);
    assert list[0] in list;
    if when < list[0].from { NoneBegun(list, when); }
  }

  /** _in_force, over a session that has sign-ins: the sign-in with the latest
      start at or before the lookup; before the first, that one if it began
      with the session, to within the clock slack, and nobody if not. */
  method Lookup(list: seq<SignIn>, start: Time, when: Time) returns (found: InForce)
    requires WellKept(list) && list != []
    ensures when >= list[0].from ==>
              && found.Somebody? && found.signin in list && found.signin.from <= when
              && (forall s <- list :: s.from <= when ==> s.from <= found.signin.from)
    ensures when < list[0].from ==>
              found == if list[0].from > start + CLOCK_SLACK then Nobody else Somebody(list[0])
    ensures found == InForceAt(list, start, when)
  {
    InForceIs(list, start, when);
    var current := list[0];
    if when < current.from && current.from > start + CLOCK_SLACK {
      return Nobody;
    }
    for i := 0 to |list|
      invariant current == match Begun(list[..i], when) case None => list[0] case Some(s) => s
    {
      assert list[..i + 1][..i] == list[..i];
      if list[i].from <= when { current := list[i]; }
    }
    assert list[..|list|] == list;
    found := Somebody(current);
  }

  // -- what merging and trimming leave in force ------------------------------

  /** Both lists have the same person in force. */
  predicate SameBegun(a: Option<SignIn>, b: Option<SignIn>) {
    (a.None? <==> b.None?) && (a.Some? && b.Some? ==> SamePerson(a.value, b.value))
  }

  lemma TakenInBegun(merged: seq<SignIn>, p: SignIn, when: Time)
    requires merged != [] ==> merged[|merged| - 1].from <= p.from
    ensures when >= p.from ==> SameBegun(Begun(TakenIn(merged, p), when), Some(p))
    ensures when < p.from ==> SameBegun(Begun(TakenIn(merged, p), when), Begun(merged, when))
  {
    var next, last := TakenIn(merged, p), |merged| - 1;
    if merged != [] && SamePerson(merged[last], p) {
      assert next[..last] == merged[..last];
    } else {
      assert next[..|merged|] == merged;
    }
  }

  lemma {:induction false} MergedEnds(list: seq<SignIn>)
    requires Sorted(list)
    ensures list == [] <==> Merged(list) == []
    ensures list != [] ==> var m := Merged(list); m[0].from == list[0].from && m[|m| - 1].from <= list[|list| - 1].from
  {
    if list != [] { MergedEnds(list[..|list| - 1]); }
  }

  lemma {:induction false} MergedBegun(list: seq<SignIn>, when: Time)
    requires Sorted(list)
    ensures SameBegun(Begun(Merged(list), when), Begun(list, when))
  {
    if list != [] {
      var n := |list| - 1;
      MergedEnds(list[..n]);
      MergedBegun(list[..n], when);
      TakenInBegun(Merged(list[..n]), list[n], when);
      assert Merged(list) == TakenIn(Merged(list[..n]), list[n]);
      assert Begun(list, when) == if list[n].from <= when then Some(list[n]) else Begun(list[..n], when);
    }
  }

  /** What is cut off the front had given way before the first that is left began. */
  lemma {:induction false} SuffixBegun(list: seq<SignIn>, k: nat, when: Time)
    requires k < |list| && list[k].from <= when
    ensures Begun(list[k..], when) == Begun(list, when)
  {
    var n := |list| - 1;
    if list[n].from > when {
      SuffixBegun(list[..n], k, when);
      assert list[k..][..n - k] == list[..n][k..];
    }
  }

  lemma SortedEnd(list: seq<SignIn>, sorted: seq<SignIn>)
    requires Sorts(sorted, list)
    ensures |sorted| == |list| && forall s :: s in sorted <==> s in list
  {
    var order :| Rearranges(sorted, order, list, |list|);
    forall s | s in sorted ensures s in list {
      var k :| 0 <= k < |sorted| && sorted[k] == s;
    }
    forall s | s in list ensures s in sorted {
      var k :| 0 <= k < |list| && list[k] == s;
      var at := Onto(order, k);
    }
  }

  function UpTo(n: nat): (all: set<nat>)
    ensures |all| == n && forall k: nat :: k in all <==> k < n
  {
    if n == 0 then {} else UpTo(n - 1) + {n - 1}
  }

  /** Distinct places below n, n of them, are all the places. */
  lemma Onto(order: seq<nat>, k: nat) returns (at: nat)
    requires k < |order| && (forall i | 0 <= i < |order| :: order[i] < |order|)
    requires forall i, j | 0 <= i < j < |order| :: order[i] != order[j]
    ensures at < |order| && order[at] == k
  {
    var all, seen := UpTo(|order|), Elements(order);
    DistinctCount(order);
    assert seen <= all;
    if k !in seen {
      assert seen <= all - {k};
      Smaller(seen, all - {k});
      assert false;
    }
    at :| 0 <= at < |order| && order[at] == k;
  }

  lemma {:induction false} DistinctCount(order: seq<nat>)
    requires forall i, j | 0 <= i < j < |order| :: order[i] != order[j]
    ensures |Elements(order)| == |order|
  {
    if order != [] {
      var n := |order| - 1;
      DistinctCount(order[..n]);
      assert Elements(order) == Elements(order[..n]) + {order[n]};
    }
  }

  lemma {:induction false} Smaller(a: set<nat>, b: set<nat>)
    requires a <= b
    ensures |a| <= |b|
  {
    if a != {} {
      var x :| x in a;
      Smaller(a - {x}, b - {x});
    }
  }

  /** The one in force of these at a time: none of them that had begun began later. */
  ghost predicate InForceOf(p: SignIn, periods: seq<SignIn>, when: Time) {
    p in periods && p.from <= when && forall q <- periods | q.from <= when :: q.from <= p.from
  }

  /** From the first sign-in that is kept on, nobody's word is changed: whoever
      is in force by what is kept was in force by all there was. And as long
      as fewer than sixteen are kept, none that began earlier is gone. */
  ghost predicate KeepsInForce(kept: seq<SignIn>, periods: seq<SignIn>) {
    && kept != [] && (|kept| < 16 ==> forall p <- periods :: kept[0].from <= p.from)
    && forall when | when >= kept[0].from :: RightAt(kept, periods, when)
  }

  ghost predicate RightAt(kept: seq<SignIn>, periods: seq<SignIn>, when: Time) {
    && Begun(kept, when).Some?
    && exists p <- periods :: InForceOf(p, periods, when) && SamePerson(Begun(kept, when).value, p)
  }

  /** What is kept of so many. */
  lemma LatestFrom<T>(all: seq<T>, kept: seq<T>)
    requires all != [] && kept == Latest(all)
    ensures kept != [] && kept == all[|all| - |kept|..] && kept[|kept| - 1] == all[|all| - 1]
    ensures |kept| < 16 ==> kept == all
  {
  }

  lemma LatestKeepsInForce(kept: seq<SignIn>, periods: seq<SignIn>, sorted: seq<SignIn>)
    requires periods != [] && Sorts(sorted, periods) && kept == Latest(Merged(sorted))
    ensures KeepsInForce(kept, periods)
  {
    LatestBegins(kept, periods, sorted);
    forall when | when >= kept[0].from ensures RightAt(kept, periods, when) {
      LatestIsRight(kept, periods, sorted, when);
    }
  }

  lemma LatestBegins(kept: seq<SignIn>, periods: seq<SignIn>, sorted: seq<SignIn>)
    requires periods != [] && Sorts(sorted, periods) && kept == Latest(Merged(sorted))
    ensures kept != [] && (|kept| < 16 ==> forall p <- periods :: kept[0].from <= p.from)
  {
    SortedEnd(periods, sorted);
    MergedEnds(sorted);
    LatestFrom(Merged(sorted), kept);
    FirstIsEarliest(sorted, periods);
  }

  lemma LatestIsRight(kept: seq<SignIn>, periods: seq<SignIn>, sorted: seq<SignIn>, when: Time)
    requires Sorts(sorted, periods) && kept == Latest(Merged(sorted)) && kept != [] && when >= kept[0].from
    ensures RightAt(kept, periods, when)
  {
    SortedEnd(periods, sorted);
    LatestFrom(Merged(sorted), kept);
    InForceLeft(sorted, |Merged(sorted)| - |kept|, when);
    InForceSame(sorted, periods, Begun(sorted, when).value, when);
  }

  lemma FirstIsEarliest(sorted: seq<SignIn>, list: seq<SignIn>)
    requires Sorted(sorted) && sorted != [] && forall s :: s in sorted <==> s in list
    ensures forall p <- list :: sorted[0].from <= p.from
  {
    forall p <- list ensures sorted[0].from <= p.from {
      var k :| 0 <= k < |sorted| && sorted[k] == p;
    }
  }

  lemma InForceSame(a: seq<SignIn>, b: seq<SignIn>, p: SignIn, when: Time)
    requires InForceOf(p, a, when) && forall s :: s in a <==> s in b
    ensures p in b && InForceOf(p, b, when)
  {
  }

  lemma InForceLeft(sorted: seq<SignIn>, k: nat, when: Time)
    requires Sorted(sorted) && k < |Merged(sorted)| && Merged(sorted)[k].from <= when
    ensures Begun(sorted, when).Some? && InForceOf(Begun(sorted, when).value, sorted, when)
    ensures SameBegun(Begun(Merged(sorted)[k..], when), Begun(sorted, when))
  {
    MergedBegun(sorted, when);
    SuffixBegun(Merged(sorted), k, when);
    BegunIsLatest(sorted, when);
    assert BegunAt(Merged(sorted), when, k);
    BegunSome(Merged(sorted), k, when);
  }

  predicate BegunAt(list: seq<SignIn>, when: Time, k: nat)
    requires k < |list|
  {
    list[k].from <= when
  }

  lemma {:induction false} BegunSome(list: seq<SignIn>, k: nat, when: Time)
    requires k < |list| && BegunAt(list, when, k)
    ensures Begun(list, when).Some?
  {
    var n := |list| - 1;
    if list[n].from > when {
      assert BegunAt(list[..n], when, k);
      BegunSome(list[..n], k, when);
    }
  }

  /** The list's last sign-in is this person's, under the Class too. */
  predicate EndsUnder(list: seq<SignIn>, p: SignIn, klass: string) {
    list != [] && SamePerson(list[|list| - 1], p) && klass in list[|list| - 1].classes
  }

  lemma TakenInEnds(merged: seq<SignIn>, p: SignIn, klass: string)
    requires p.classes == [klass]
    ensures EndsUnder(TakenIn(merged, p), p, klass)
  {
    if merged != [] && SamePerson(merged[|merged| - 1], p) {
      var all := merged[|merged| - 1].classes + p.classes;
      LatestFrom(all, Latest(all));
      assert Latest(all)[|Latest(all)| - 1] == klass;
    }
  }

  /** When the report's sign-in began. */
  function BeganAt(list: seq<SignIn>, signin: Option<Time>, start: Time, reportedAt: Time): Time {
    if signin.Some? then signin.value else if list == [] then start else reportedAt
  }

  /** A sign-in under a new Class that began after all those listed is the last
      of those kept, under that Class, and in force from then on. */
  ghost predicate KeepsNewest(kept: seq<SignIn>, klass: string, user: string, signed: bool, from: Time) {
    && kept != [] && klass in kept[|kept| - 1].classes
    && kept[|kept| - 1].user == user && kept[|kept| - 1].signed == signed && kept[|kept| - 1].from <= from
    && forall start, when | when >= from :: InForceAt(kept, start, when) == Somebody(kept[|kept| - 1])
  }

  lemma LastOfSorted(sorted: seq<SignIn>, list: seq<SignIn>, p: SignIn)
    requires Sorts(sorted, list + [p]) && forall q <- list :: q.from < p.from
    ensures sorted != [] && sorted[|sorted| - 1] == p
  {
    SortedEnd(list + [p], sorted);
    var n := |sorted| - 1;
    assert (list + [p])[|list|] == p;
    assert p in list + [p];
    var k :| 0 <= k < |sorted| && sorted[k] == p;
    assert sorted[n] in sorted;
  }

  lemma EndsInForce(kept: seq<SignIn>, p: SignIn, klass: string)
    requires EndsUnder(kept, p, klass) && kept[|kept| - 1].from <= p.from
    ensures KeepsNewest(kept, klass, p.user, p.signed, p.from)
  {
  }

  lemma NewestKept(kept: seq<SignIn>, list: seq<SignIn>, sorted: seq<SignIn>, p: SignIn, klass: string)
    requires p.classes == [klass] && forall q <- list :: q.from < p.from
    requires Sorts(sorted, list + [p]) && kept == Latest(Merged(sorted))
    ensures KeepsNewest(kept, klass, p.user, p.signed, p.from)
  {
    LastOfSorted(sorted, list, p);
    var n := |sorted| - 1;
    TakenInEnds(Merged(sorted[..n]), p, klass);
    assert Merged(sorted) == TakenIn(Merged(sorted[..n]), p);
    MergedEnds(sorted);
    LatestFrom(Merged(sorted), kept);
    EndsInForce(kept, p, klass);
  }

  /** What a report leaves answers, from the first sign-in that is kept on, as all there were would. */
  lemma UpdateKeepsInForce(kept: seq<SignIn>, list: seq<SignIn>, klass: string, user: string, signed: bool,
                           signin: Option<Time>, start: Time, reportedAt: Time) returns (periods: seq<SignIn>)
    requires klass != "" && Updated(kept, list, klass, user, signed, signin, start, reportedAt)
    ensures Adds(periods, list, klass, user, signed, signin, start, reportedAt) && KeepsInForce(kept, periods)
  {
    var ps, sorted :| Adds(ps, list, klass, user, signed, signin, start, reportedAt)
                      && Sorts(sorted, ps) && kept == Latest(Merged(sorted));
    periods := ps;
    LatestKeepsInForce(kept, periods, sorted);
  }

  /** A sign-in under a new Class that began after all those listed is the last
      of those kept, and whoever it is is in force from then on. */
  lemma UpdateKeepsNewest(kept: seq<SignIn>, list: seq<SignIn>, klass: string, user: string, signed: bool,
                          signin: Option<Time>, start: Time, reportedAt: Time)
    requires klass != "" && Updated(kept, list, klass, user, signed, signin, start, reportedAt)
    requires forall p <- list :: klass !in p.classes && p.from < BeganAt(list, signin, start, reportedAt)
    ensures KeepsNewest(kept, klass, user, signed, BeganAt(list, signin, start, reportedAt))
  {
    var periods, sorted :| Adds(periods, list, klass, user, signed, signin, start, reportedAt)
                           && Sorts(sorted, periods) && kept == Latest(Merged(sorted));
    NewestKept(kept, list, sorted, periods[|list|], klass);
  }

  /** A report under a Class that is known: only the sign-in it goes by changes,
      which begins when its Access-Accept was logged if that is earlier, and
      takes the name reported, but none a device gives in place of one NPS authenticated. */
  lemma KnownClassNoted(periods: seq<SignIn>, list: seq<SignIn>, i: nat, klass: string, user: string, signed: bool,
                        signin: Option<Time>, start: Time, reportedAt: Time)
    requires WellKept(list) && i < |list| && klass in list[i].classes
    requires Adds(periods, list, klass, user, signed, signin, start, reportedAt)
    ensures |periods| == |list| && forall j | 0 <= j < |list| && j != i :: periods[j] == list[j]
    ensures var was, now := list[i], periods[i];
            && now.classes == was.classes
            && now.from == (if signin.Some? then Min(was.from, signin.value) else was.from)
            && (user == "" || (was.signed && !signed) ==> now.user == was.user && now.signed == was.signed)
            && (user != "" && (signed || !was.signed) ==> now.user == user && now.signed == signed)
  {
    assert list[i] in list;
    var k :| 0 <= k < |list| && klass in list[k].classes
             && periods == list[k := Renamed(list[k], user, signed, signin)];
    var a, b := Min(i, k), Max(i, k);
    assert a == b || Disjoint(list[a], list[b]);
  }

  /** Whoever is kept under the Class is whom the report says, or whom it may not replace. */
  lemma ClassNamed(kept: seq<SignIn>, list: seq<SignIn>, s: SignIn, klass: string, user: string, signed: bool)
    requires WellKept(list) && Follows(kept, list, klass, user, signed) && s in kept && klass in s.classes
    ensures (forall p <- list :: klass !in p.classes) ==> s.user == user && s.signed == signed
    ensures forall p <- list | klass in p.classes ::
              && (user == "" || (p.signed && !signed) ==> s.user == p.user && s.signed == p.signed)
              && (user != "" && (signed || !p.signed) ==> s.user == user && s.signed == signed)
  {
    forall p <- list | klass in p.classes
      ensures user == "" || (p.signed && !signed) ==> s.user == p.user && s.signed == p.signed
      ensures user != "" && (signed || !p.signed) ==> s.user == user && s.signed == signed
    {
      var q :| q in list && klass in q.classes && Named(s, Some(q), user, signed);
      OneUnderClass(list, p, q, klass);
    }
  }

  lemma OneUnderClass(list: seq<SignIn>, p: SignIn, q: SignIn, klass: string)
    requires Separate(list) && p in list && q in list && klass in p.classes && klass in q.classes
    ensures p == q
  {
    var i :| 0 <= i < |list| && list[i] == p;
    var j :| 0 <= j < |list| && list[j] == q;
    var a, b := Min(i, j), Max(i, j);
    assert a == b || Disjoint(list[a], list[b]);
  }
}
