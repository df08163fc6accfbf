/** Weighing what the lists claim of a host: which categories are believed, on
    whose word, and what corrections and the incidental mark take away. */
module Evidence {
  import opened Wrappers
  import opened Names
  import opened Layout

  const NEGATION: Byte := 33
  const INCIDENTAL := Ascii("incidental")
  const RISK := Ascii("risk")

  /** What a category says of a host; one the taxonomy does not know says only its own name. */
  datatype Statement = Statement(facet: Option<Text>, path: seq<Text>)

  /** The taxonomy: what each category it knows, spelled in lower case, says. */
  datatype Lexicon = Lexicon(rows: map<Text, set<Statement>>)

  /** One claim: the key that matched, none for a resolver's vote, the source and the category. */
  datatype Said = Said(key: Option<Text>, source: Source, category: Text)

  // -- spelling -----------------------------------------------------------------

  predicate Blank(b: Byte) {
    9 <= b <= 13 || 28 <= b <= 32
  }

  function StripLeft(s: Text): Text {
    if s != [] && Blank(s[0]) then StripLeft(s[1..]) else s
  }

  function StripRight(s: Text): Text {
    if s != [] && Blank(s[|s| - 1]) then StripRight(s[..|s| - 1]) else s
  }

  function Lower(s: Text): Text {
    seq(|s|, i requires 0 <= i < |s| => if 65 <= s[i] <= 90 then s[i] + 32 else s[i])
  }

  function Key(category: Text): Text {
    Lower(StripRight(StripLeft(category)))
  }

  function Statements(lex: Lexicon, category: Text): (made: set<Statement>)
    ensures made != {}
  {
    var key := Key(category);
    if key in lex.rows && lex.rows[key] != {} then lex.rows[key] else {Statement(None, [key])}
  }

  predicate IsRisk(lex: Lexicon, category: Text) {
    forall s <- Statements(lex, category) :: s.facet == Some(RISK)
  }

  // -- how many must agree ----------------------------------------------------------

  /** The publishers a statement needs, by taxonomy branch or path, and by default. */
  datatype Bar = Bar(of: map<seq<Text>, nat>, default: nat)

  /** The most specific branch of the path that has a bar of its own decides. */
  function NeededBy(path: seq<Text>, n: nat, bar: Bar): nat
    requires n <= |path|
  {
    if n == 0 then bar.default else if path[..n] in bar.of then bar.of[path[..n]] else NeededBy(path, n - 1, bar)
  }

  function Needed(s: Statement, bar: Bar): nat {
    if s.facet.None? then bar.default else NeededBy(s.path, |s.path|, bar)
  }

  lemma {:induction false} MostSpecific(path: seq<Text>, n: nat, bar: Bar, k: nat)
    requires 0 < k <= n <= |path| && path[..k] in bar.of && forall j | k < j <= n :: path[..j] !in bar.of
    ensures NeededBy(path, n, bar) == bar.of[path[..k]]
  {
    if n > k { MostSpecific(path, n - 1, bar, k); }
  }

  /** One source's opinion is not separate from the other's. */
  predicate Dependent(a: Source, b: Source) {
    a.publisher == b.publisher || a.publisher in b.derivedFrom || b.publisher in a.derivedFrom
  }

  predicate Apart(group: set<Source>) {
    forall a, b | a in group && b in group && a != b :: !Dependent(a, b)
  }

  predicate Group(backers: set<Source>, group: set<Source>, n: nat) {
    group <= backers && |group| == n && Apart(group)
  }

  /** So many of the backers are pairwise independent; one is always enough where no more is asked. */
  ghost predicate Enough(backers: set<Source>, n: nat) {
    if n <= 1 then backers != {} else exists group :: Group(backers, group, n)
  }

  lemma MoreEnough(backers: set<Source>, more: set<Source>, n: nat)
    requires backers <= more && Enough(backers, n)
    ensures Enough(more, n)
  {
    if n > 1 {
      var group :| Group(backers, group, n);
      assert Group(more, group, n);
    }
  }

  // -- the verdict ----------------------------------------------------------------------

  predicate Negated(category: Text) {
    category != [] && category[0] == NEGATION
  }

  function Corrections(claims: set<Said>): set<Text> {
    set x | x in claims && Negated(x.category) :: x.category[1..]
  }

  /** The category makes every statement some corrected category makes. */
  predicate Cancels(lex: Lexicon, corrections: set<Text>, category: Text) {
    exists c <- corrections :: Statements(lex, c) <= Statements(lex, category)
  }

  function Claimed(claims: set<Said>): set<Text> {
    set x | x in claims && !Negated(x.category) :: x.category
  }

  /** The claim makes the statement, and no correction takes it back. */
  predicate Makes(lex: Lexicon, corrections: set<Text>, x: Said, s: Statement) {
    !Negated(x.category) && !Cancels(lex, corrections, x.category) && s in Statements(lex, x.category)
  }

  /** The medium trust sources whose claims, under these corrections, make the statement. */
  function Backers(lex: Lexicon, corrections: set<Text>, claims: set<Said>, s: Statement): set<Source> {
    set x | x in claims && Makes(lex, corrections, x, s) && x.source.trust == MEDIUM :: x.source
  }

  predicate Trusted(lex: Lexicon, corrections: set<Text>, claims: set<Said>, s: Statement) {
    exists x <- claims :: Makes(lex, corrections, x, s) && x.source.trust == HIGH
  }

  /** A high trust source makes the statement, or enough medium ones do. */
  ghost predicate Supported(lex: Lexicon, bar: Bar, claims: set<Said>, s: Statement) {
    || Trusted(lex, Corrections(claims), claims, s)
    || Enough(Backers(lex, Corrections(claims), claims, s), Needed(s, bar))
  }

  /** Every statement of the category is supported. */
  ghost predicate Believed(lex: Lexicon, bar: Bar, claims: set<Said>, category: Text) {
    forall s <- Statements(lex, category) :: Supported(lex, bar, claims, s)
  }

  ghost predicate Marked(lex: Lexicon, bar: Bar, claims: set<Said>, navigation: bool) {
    INCIDENTAL in Claimed(claims) && Believed(lex, bar, claims, INCIDENTAL) && !navigation
  }

  /** What resolve asserts: what is claimed, not cancelled, believed, and allowed by the mark. */
  ghost predicate Asserts(lex: Lexicon, bar: Bar, claims: set<Said>, navigation: bool, category: Text) {
    && category in Claimed(claims) && category != INCIDENTAL && !Cancels(lex, Corrections(claims), category)
    && Believed(lex, bar, claims, category)
    && (Marked(lex, bar, claims, navigation) ==> IsRisk(lex, category))
  }

  datatype Verdict = Verdict(asserted: set<Text>, candidate: set<Text>, suppressed: set<Text>,
                             corrected: set<Text>, incidental: bool)

  ghost function Weigh(lex: Lexicon, bar: Bar, claims: set<Said>, navigation: bool): Verdict {
    var claimed := Claimed(claims) - {INCIDENTAL};
    var corrections := Corrections(claims);
    var asserted := set c | c in claimed && Asserts(lex, bar, claims, navigation, c);
    var cancelled := set c | c in claimed && Cancels(lex, corrections, c);
    Verdict(asserted, claimed - asserted - cancelled, cancelled, corrections, Marked(lex, bar, claims, navigation))
  }

  // -- the brute force search --------------------------------------------------------------

  function Prepend<T>(x: T, lists: seq<seq<T>>): (all: seq<seq<T>>)
    ensures |all| == |lists| && forall i | 0 <= i < |all| :: all[i] == [x] + lists[i]
  {
    seq(|lists|, i requires 0 <= i < |lists| => [x] + lists[i])
  }

  /** Every choice of k elements, in the order of the list. */
  function Combinations<T>(s: seq<T>, k: nat): seq<seq<T>> {
    if k == 0 then [[]]
    else if s == [] then []
    else Prepend(s[0], Combinations(s[1..], k - 1)) + Combinations(s[1..], k)
  }

  /** A choice takes the first element and chooses among the others, or chooses among the others only. */
  lemma ChosenSplit<T>(s: seq<T>, k: nat, g: seq<T>) returns (rest: seq<T>)
    requires k > 0 && s != [] && g in Combinations(s, k)
    ensures (g == [s[0]] + rest && rest in Combinations(s[1..], k - 1))
            || (g == rest && rest in Combinations(s[1..], k))
  {
    var with, without := Combinations(s[1..], k - 1), Combinations(s[1..], k);
    var i :| 0 <= i < |with| + |without| && (Prepend(s[0], with) + without)[i] == g;
    rest := if i < |with| then with[i] else without[i - |with|];
  }

  /** Each choice is of k different elements of the list. */
  lemma {:induction false} CombinationIs<T>(s: seq<T>, k: nat, g: seq<T>)
    requires Distinct(s) && g in Combinations(s, k)
    ensures |g| == k && Distinct(g) && Elements(g) <= Elements(s)
  {
    if k > 0 && s != [] {
      var rest := ChosenSplit(s, k, g);
      TailDistinct(s);
      if g == rest && rest in Combinations(s[1..], k) {
        CombinationIs(s[1..], k, rest);
      } else {
        CombinationIs(s[1..], k - 1, rest);
        ConsSet(s[0], rest);
        ConsDistinct(s[0], rest, s[1..]);
      }
    }
  }

  lemma TailDistinct<T>(s: seq<T>)
    requires Distinct(s) && s != []
    ensures Distinct(s[1..]) && s[0] !in s[1..] && Elements(s) == {s[0]} + Elements(s[1..])
  {
    assert s == [s[0]] + s[1..];
    ConsSet(s[0], s[1..]);
  }

  lemma ConsDistinct<T>(x: T, rest: seq<T>, s: seq<T>)
    requires Distinct(rest) && x !in s && Elements(rest) <= Elements(s)
    ensures Distinct([x] + rest)
  {
    assert forall i | 0 <= i < |rest| :: rest[i] in Elements(rest);
  }

  lemma ChosenWith<T>(s: seq<T>, k: nat, rest: seq<T>)
    requires k > 0 && s != [] && rest in Combinations(s[1..], k - 1)
    ensures [s[0]] + rest in Combinations(s, k)
  {
    var with := Combinations(s[1..], k - 1);
    var i :| 0 <= i < |with| && with[i] == rest;
    assert (Prepend(s[0], with) + Combinations(s[1..], k))[i] == [s[0]] + rest;
  }

  lemma ChosenWithout<T>(s: seq<T>, k: nat, g: seq<T>)
    requires k > 0 && s != [] && g in Combinations(s[1..], k)
    ensures g in Combinations(s, k)
  {
  }

  lemma RestOf<T>(s: seq<T>, group: set<T>)
    requires s != [] && group <= Elements(s)
    ensures group - {s[0]} <= Elements(s[1..])
  {
    forall x <- group - {s[0]} ensures x in Elements(s[1..]) {
      assert x in s;
      assert s == [s[0]] + s[1..];
    }
  }

  lemma ConsSet<T>(x: T, rest: seq<T>)
    ensures Elements([x] + rest) == {x} + Elements(rest)
  {
    assert forall y :: y in [x] + rest <==> y == x || y in rest;
  }

  /** Every set of k elements of the list is chosen. */
  lemma {:induction false} CombinationOf<T>(s: seq<T>, k: nat, group: set<T>) returns (g: seq<T>)
    requires group <= Elements(s) && |group| == k
    ensures g in Combinations(s, k) && Elements(g) == group
  {
    if k == 0 {
      g := [];
    } else {
      var x :| x in group;
      assert x in s;
      RestOf(s, group);
      if s[0] in group {
        var rest := CombinationOf(s[1..], k - 1, group - {s[0]});
        g := [s[0]] + rest;
        ChosenWith(s, k, rest);
        ConsSet(s[0], rest);
      } else {
        assert group - {s[0]} == group;
        g := CombinationOf(s[1..], k, group);
        ChosenWithout(s, k, g);
      }
    }
  }

  method Listed(s: set<Source>) returns (list: seq<Source>)
    ensures Distinct(list) && Elements(list) == s
  {
    list := [];
    var rest := s;
    while rest != {}
      invariant Distinct(list) && Elements(list) + rest == s && Elements(list) !! rest
      decreases |rest|
    {
      var x :| x in rest;
      assert x !in Elements(list);
      Appended(list, x);
      list := list + [x];
      rest := rest - {x};
    }
  }

  lemma Appended(list: seq<Source>, x: Source)
    requires Distinct(list) && x !in Elements(list)
    ensures Distinct(list + [x]) && Elements(list + [x]) == Elements(list) + {x}
  {
    assert forall i | 0 <= i < |list| :: list[i] in Elements(list);
    assert forall y :: y in list + [x] <==> y in Elements(list) || y == x;
  }

  predicate AllApart(group: seq<Source>) {
    forall i, j | 0 <= i < j < |group| :: !Dependent(group[i], group[j])
  }

  lemma AllApartSet(group: seq<Source>)
    requires Distinct(group)
    ensures AllApart(group) <==> Apart(Elements(group))
  {
    if AllApart(group) {
      forall a, b | a in Elements(group) && b in Elements(group) && a != b ensures !Dependent(a, b) {
        var i :| 0 <= i < |group| && group[i] == a;
        var j :| 0 <= j < |group| && group[j] == b;
        assert i < j || j < i;
      }
    }
    if Apart(Elements(group)) {
      forall i, j | 0 <= i < j < |group| ensures !Dependent(group[i], group[j]) {
        assert group[i] in Elements(group) && group[j] in Elements(group);
      }
    }
  }

  lemma {:induction false} SizeOf<T>(s: seq<T>)
    requires Distinct(s)
    ensures |Elements(s)| == |s|
  {
    if s != [] {
      var n := |s| - 1;
      SizeOf(s[..n]);
      assert Elements(s) == Elements(s[..n]) + {s[n]} by { assert s == s[..n] + [s[n]]; }
    }
  }

  /** Whether so many of the sources are pairwise independent, by trying every choice of so many. */
  method Corroborated(sources: set<Source>, needed: nat) returns (enough: bool)
    ensures enough == Enough(sources, needed)
  {
    if needed <= 1 { return sources != {}; }
    var list := Listed(sources);
    var groups := Combinations(list, needed);
    for i := 0 to |groups|
      invariant forall j | 0 <= j < i :: !AllApart(groups[j])
    {
      CombinationIs(list, needed, groups[i]);
      if AllApart(groups[i]) {
        AllApartSet(groups[i]);
        SizeOf(groups[i]);
        assert Group(sources, Elements(groups[i]), needed);
        return true;
      }
    }
    forall group | Group(sources, group, needed) ensures false {
      var g := CombinationOf(list, needed, group);
      CombinationIs(list, needed, g);
      AllApartSet(g);
    }
    enough := false;
  }

  // -- the weighing, step by step ------------------------------------------------------------

  /** What is gathered of the claims: every category named, the statements a
      high trust source makes, and the medium trust sources behind each. */
  datatype Gathered = Gathered(claimed: set<Text>, trusted: set<Statement>, backers: map<Statement, set<Source>>)

  ghost predicate GatheredOf(g: Gathered, lex: Lexicon, corrections: set<Text>, claims: set<Said>) {
    && g.claimed == Claimed(claims)
    && (forall s :: s in g.trusted <==> Trusted(lex, corrections, claims, s))
    && forall s :: BackersIn(g.backers, s) == Backers(lex, corrections, claims, s)
  }

  function BackersIn(backers: map<Statement, set<Source>>, s: Statement): set<Source> {
    if s in backers then backers[s] else {}
  }

  /** The source stands behind each of these statements too. */
  method AddBacker(backers0: map<Statement, set<Source>>, made: set<Statement>, source: Source)
    returns (backers: map<Statement, set<Source>>)
    ensures forall s | s in made :: BackersIn(backers, s) == BackersIn(backers0, s) + {source}
    ensures forall s | s !in made :: BackersIn(backers, s) == BackersIn(backers0, s)
  {
    backers := backers0;
    var rest := made;
    while rest != {}
      invariant rest <= made
      invariant forall s | s in made && s !in rest :: BackersIn(backers, s) == BackersIn(backers0, s) + {source}
      invariant forall s | s !in made || s in rest :: BackersIn(backers, s) == BackersIn(backers0, s)
      decreases |rest|
    {
      var s :| s in rest;
      ghost var before := backers;
      backers := backers[s := BackersIn(backers, s) + {source}];
      assert forall t | t != s :: BackersIn(backers, t) == BackersIn(before, t);
      rest := rest - {s};
    }
  }

  lemma GatherNext(lex: Lexicon, corrections: set<Text>, claims: set<Said>, x: Said, s: Statement)
    ensures Trusted(lex, corrections, claims + {x}, s)
            <==> Trusted(lex, corrections, claims, s) || (Makes(lex, corrections, x, s) && x.source.trust == HIGH)
    ensures Backers(lex, corrections, claims + {x}, s)
            == Backers(lex, corrections, claims, s)
               + if Makes(lex, corrections, x, s) && x.source.trust == MEDIUM then {x.source} else {}
  {
    if Trusted(lex, corrections, claims, s) {
      var y :| y in claims && Makes(lex, corrections, y, s) && y.source.trust == HIGH;
      assert y in claims + {x};
    }
  }

  method GatherOne(lex: Lexicon, corrections: set<Text>, g0: Gathered, x: Said, ghost claims: set<Said>)
    returns (g: Gathered)
    requires GatheredOf(g0, lex, corrections, claims)
    ensures GatheredOf(g, lex, corrections, claims + {x})
  {
    forall s
      ensures Trusted(lex, corrections, claims + {x}, s)
              <==> Trusted(lex, corrections, claims, s) || (Makes(lex, corrections, x, s) && x.source.trust == HIGH)
      ensures Backers(lex, corrections, claims + {x}, s)
              == Backers(lex, corrections, claims, s)
                 + if Makes(lex, corrections, x, s) && x.source.trust == MEDIUM then {x.source} else {}
    {
      GatherNext(lex, corrections, claims, x, s);
    }
    if Negated(x.category) { return g0; }
    g := g0.(claimed := g0.claimed + {x.category});
    if Cancels(lex, corrections, x.category) { return; }
    var made := Statements(lex, x.category);
    if x.source.trust == HIGH {
      g := g.(trusted := g.trusted + made);
    } else if x.source.trust == MEDIUM {
      var backers := AddBacker(g.backers, made, x.source);
      g := g.(backers := backers);
    }
  }

  /** Which statements are supported, of those anybody makes. */
  method Support(lex: Lexicon, bar: Bar, g: Gathered, ghost claims: set<Said>) returns (supported: set<Statement>)
    requires GatheredOf(g, lex, Corrections(claims), claims)
    ensures forall s :: s in supported <==> Supported(lex, bar, claims, s)
  {
    supported := {};
    var rest := g.trusted + g.backers.Keys;
    while rest != {}
      invariant rest <= g.trusted + g.backers.Keys
      invariant forall s :: s in supported ==> Supported(lex, bar, claims, s)
      invariant forall s <- g.trusted + g.backers.Keys ::
        s !in rest && Supported(lex, bar, claims, s) ==> s in supported
      decreases |rest|
    {
      var s :| s in rest;
      var enough := Corroborated(BackersIn(g.backers, s), Needed(s, bar));
      if s in g.trusted || enough { supported := supported + {s}; }
      rest := rest - {s};
    }
    forall s | Supported(lex, bar, claims, s) ensures s in supported { Made(lex, bar, g, claims, s); }
  }

  /** Only what somebody says is supported. */
  lemma Made(lex: Lexicon, bar: Bar, g: Gathered, claims: set<Said>, s: Statement)
    requires GatheredOf(g, lex, Corrections(claims), claims) && Supported(lex, bar, claims, s)
    ensures s in g.trusted + g.backers.Keys
  {
    if s !in g.trusted {
      var backers := Backers(lex, Corrections(claims), claims, s);
      if Needed(s, bar) > 1 {
        var group :| Group(backers, group, Needed(s, bar));
        var x :| x in group;
        assert x in backers;
      }
      assert BackersIn(g.backers, s) == backers != {};
    }
  }

  /** Weighs claims in any order, as often as each may come. */
  method Resolve(lex: Lexicon, bar: Bar, claims: seq<Said>, navigation: bool) returns (v: Verdict)
    ensures v == Weigh(lex, bar, Elements(claims), navigation)
  {
    var corrections := Corrections(Elements(claims));
    var g := Gathered({}, {}, map[]);
    assert Elements(claims[..0]) == {};
    for i := 0 to |claims|
      invariant GatheredOf(g, lex, corrections, Elements(claims[..i]))
    {
      g := GatherOne(lex, corrections, g, claims[i], Elements(claims[..i]));
      assert claims[..i + 1] == claims[..i] + [claims[i]];
      assert Elements(claims[..i + 1]) == Elements(claims[..i]) + {claims[i]};
    }
    assert claims[..|claims|] == claims;
    var supported := Support(lex, bar, g, Elements(claims));
    v := Judge(lex, bar, g.claimed, supported, corrections, navigation, Elements(claims));
  }

  /** The verdict, from what is supported. */
  method Judge(lex: Lexicon, bar: Bar, named: set<Text>, supported: set<Statement>, corrections: set<Text>,
               navigation: bool, ghost claims: set<Said>) returns (v: Verdict)
    requires named == Claimed(claims) && corrections == Corrections(claims)
    requires forall s :: s in supported <==> Supported(lex, bar, claims, s)
    ensures v == Weigh(lex, bar, claims, navigation)
  {
    var asserted := set c | c in named && Statements(lex, c) <= supported;
    var incidental := INCIDENTAL in asserted && !navigation;
    var claimed := named - {INCIDENTAL};
    asserted := asserted - {INCIDENTAL};
    var cancelled := set c | c in claimed && Cancels(lex, corrections, c);
    if incidental { asserted := set c | c in asserted && IsRisk(lex, c); }
    v := Verdict(asserted - cancelled, claimed - asserted - cancelled, claimed * cancelled, corrections, incidental);
    SameVerdict(lex, bar, claims, navigation, supported, v, asserted, cancelled);
  }

  lemma SameVerdict(lex: Lexicon, bar: Bar, claims: set<Said>, navigation: bool, supported: set<Statement>, v: Verdict,
                    asserted: set<Text>, cancelled: set<Text>)
    requires forall s :: s in supported <==> Supported(lex, bar, claims, s)
    requires v.incidental == (INCIDENTAL in Claimed(claims) && Statements(lex, INCIDENTAL) <= supported && !navigation)
    requires forall c :: c in asserted <==>
               && c in Claimed(claims) && c != INCIDENTAL && Statements(lex, c) <= supported
               && (v.incidental ==> IsRisk(lex, c))
    requires forall c :: c in cancelled <==>
      c in Claimed(claims) && c != INCIDENTAL && Cancels(lex, Corrections(claims), c)
    requires v == Verdict(asserted - cancelled, Claimed(claims) - {INCIDENTAL} - asserted - cancelled, cancelled,
                          Corrections(claims), v.incidental)
    ensures v == Weigh(lex, bar, claims, navigation)
  {
    forall c ensures Statements(lex, c) <= supported <==> Believed(lex, bar, claims, c) {
    }
    var w := Weigh(lex, bar, claims, navigation);
    assert v.incidental == w.incidental;
    forall c ensures c in v.asserted <==> c in w.asserted {
    }
    assert v.asserted == w.asserted;
  }

  /** No category is in two lists, and every one claimed but the mark is in one. */
  lemma ListsApart(lex: Lexicon, bar: Bar, claims: set<Said>, navigation: bool)
    ensures var v := Weigh(lex, bar, claims, navigation);
            && v.asserted !! v.candidate !! v.suppressed
            && v.asserted + v.candidate + v.suppressed == Claimed(claims) - {INCIDENTAL}
            && (v.incidental ==> forall c <- v.asserted :: IsRisk(lex, c))
            && (forall c <- v.asserted + v.candidate :: !Cancels(lex, v.corrected, c))
            && (forall c <- v.suppressed :: Cancels(lex, v.corrected, c))
  {
  }

  // -- one claim more --------------------------------------------------------------------

  /** A positive claim corrects nothing, and takes no support away. */
  lemma AddPositive(lex: Lexicon, bar: Bar, claims: set<Said>, x: Said, s: Statement)
    requires !Negated(x.category)
    ensures Corrections(claims + {x}) == Corrections(claims)
    ensures Supported(lex, bar, claims, s) ==> Supported(lex, bar, claims + {x}, s)
    ensures s !in Statements(lex, x.category) ==>
      (Supported(lex, bar, claims + {x}, s) <==> Supported(lex, bar, claims, s))
  {
    assert Corrections(claims + {x}) == Corrections(claims);
    var corrections := Corrections(claims);
    GatherNext(lex, corrections, claims, x, s);
    var backers, more := Backers(lex, corrections, claims, s), Backers(lex, corrections, claims + {x}, s);
    if Enough(backers, Needed(s, bar)) { MoreEnough(backers, more, Needed(s, bar)); }
    if s !in Statements(lex, x.category) { assert more == backers; }
  }

  lemma BelievedStill(lex: Lexicon, bar: Bar, claims: set<Said>, x: Said, category: Text)
    requires !Negated(x.category)
    ensures Believed(lex, bar, claims, category) ==> Believed(lex, bar, claims + {x}, category)
    ensures Statements(lex, x.category) !! Statements(lex, category) ==>
              (Believed(lex, bar, claims + {x}, category) <==> Believed(lex, bar, claims, category))
  {
    forall s <- Statements(lex, category)
      ensures Supported(lex, bar, claims, s) ==> Supported(lex, bar, claims + {x}, s)
      ensures s !in Statements(lex, x.category) ==>
        (Supported(lex, bar, claims + {x}, s) <==> Supported(lex, bar, claims, s))
    {
      AddPositive(lex, bar, claims, x, s);
    }
  }

  /** The statement is supported already, or this claim would make it with backing enough. */
  ghost predicate SupportedWith(lex: Lexicon, bar: Bar, claims: set<Said>, x: Said, s: Statement) {
    || Supported(lex, bar, claims, s)
    || (Makes(lex, Corrections(claims), x, s)
        && (x.source.trust == HIGH
            || (x.source.trust == MEDIUM
                && Enough(Backers(lex, Corrections(claims), claims, s) + {x.source}, Needed(s, bar)))))
  }

  /** With this claim the host would be marked incidental. */
  ghost predicate MarksWith(lex: Lexicon, bar: Bar, claims: set<Said>, x: Said, navigation: bool) {
    && !navigation && (INCIDENTAL in Claimed(claims) || x.category == INCIDENTAL)
    && forall s <- Statements(lex, INCIDENTAL) :: SupportedWith(lex, bar, claims, x, s)
  }

  lemma AddingSupports(lex: Lexicon, bar: Bar, claims: set<Said>, x: Said, s: Statement)
    requires !Negated(x.category)
    ensures Supported(lex, bar, claims + {x}, s) <==> SupportedWith(lex, bar, claims, x, s)
  {
    assert Corrections(claims + {x}) == Corrections(claims);
    var corrections := Corrections(claims);
    GatherNext(lex, corrections, claims, x, s);
    AddPositive(lex, bar, claims, x, s);
    var backers, more := Backers(lex, corrections, claims, s), Backers(lex, corrections, claims + {x}, s);
    if !(Makes(lex, corrections, x, s) && x.source.trust == MEDIUM) { assert more == backers; }
  }

  lemma AddingMarks(lex: Lexicon, bar: Bar, claims: set<Said>, x: Said, navigation: bool)
    requires !Negated(x.category)
    ensures Marked(lex, bar, claims + {x}, navigation) <==> MarksWith(lex, bar, claims, x, navigation)
  {
    assert Claimed(claims + {x}) == Claimed(claims) + {x.category};
    forall s <- Statements(lex, INCIDENTAL)
      ensures Supported(lex, bar, claims + {x}, s) <==> SupportedWith(lex, bar, claims, x, s)
    {
      AddingSupports(lex, bar, claims, x, s);
    }
  }

  /** A positive claim added un-asserts nothing exactly when it would not mark
      the host incidental, or what is asserted is risk only: all of it to be
      seen on the claims before. */
  lemma AddingKeeps(lex: Lexicon, bar: Bar, claims: set<Said>, x: Said, navigation: bool)
    requires !Negated(x.category)
    ensures Weigh(lex, bar, claims, navigation).asserted <= Weigh(lex, bar, claims + {x}, navigation).asserted
            <==> (MarksWith(lex, bar, claims, x, navigation) ==>
                    forall c <- Weigh(lex, bar, claims, navigation).asserted :: IsRisk(lex, c))
  {
    var v, w := Weigh(lex, bar, claims, navigation), Weigh(lex, bar, claims + {x}, navigation);
    assert Corrections(claims + {x}) == Corrections(claims);
    assert Claimed(claims + {x}) == Claimed(claims) + {x.category};
    AddingMarks(lex, bar, claims, x, navigation);
    forall c <- v.asserted
      ensures c in w.asserted <==> (MarksWith(lex, bar, claims, x, navigation) ==> IsRisk(lex, c))
    {
      BelievedStill(lex, bar, claims, x, c);
    }
  }

  /** A claim that says nothing the mark says un-asserts nothing. */
  lemma AddingElsewhere(lex: Lexicon, bar: Bar, claims: set<Said>, x: Said, navigation: bool)
    requires !Negated(x.category) && Statements(lex, x.category) !! Statements(lex, INCIDENTAL)
    ensures Weigh(lex, bar, claims, navigation).asserted <= Weigh(lex, bar, claims + {x}, navigation).asserted
    ensures Weigh(lex, bar, claims + {x}, navigation).incidental == Weigh(lex, bar, claims, navigation).incidental
  {
    var s :| s in Statements(lex, INCIDENTAL);
    assert Claimed(claims + {x}) == Claimed(claims) + {x.category};
    BelievedStill(lex, bar, claims, x, INCIDENTAL);
    AddingMarks(lex, bar, claims, x, navigation);
    AddingKeeps(lex, bar, claims, x, navigation);
  }

  /** The mark in another spelling takes away what was asserted: it supports
      the mark a low trust source made, which nobody believed before. */
  lemma OtherSpellingUndoes(lex: Lexicon, bar: Bar, spelling: Text, category: Text, low: Source, high: Source)
    requires spelling != INCIDENTAL && !Negated(spelling) && Statements(lex, spelling) == Statements(lex, INCIDENTAL)
    requires !Negated(category) && !IsRisk(lex, category) && Statements(lex, category) !! Statements(lex, INCIDENTAL)
    requires low.trust == LOW && high.trust == HIGH && !Negated(INCIDENTAL)
    ensures var claims := {Said(None, low, INCIDENTAL), Said(None, high, category)};
            && category in Weigh(lex, bar, claims, false).asserted
            && category !in Weigh(lex, bar, claims + {Said(None, high, spelling)}, false).asserted
  {
    var claims := {Said(None, low, INCIDENTAL), Said(None, high, category)};
    var x := Said(None, high, spelling);
    assert Corrections(claims) == {} && Corrections(claims + {x}) == {};
    var made :| made in Statements(lex, INCIDENTAL);
    var y := Said(None, high, category);
    assert y in claims && Claimed(claims) == {INCIDENTAL, category};
    forall s <- Statements(lex, category) ensures Supported(lex, bar, claims, s) { assert Makes(lex, {}, y, s); }
    assert !Supported(lex, bar, claims, made) by {
      assert !Trusted(lex, {}, claims, made);
      assert Backers(lex, {}, claims, made) == {};
      NobodyIsNotEnough(Needed(made, bar));
    }
    assert x in claims + {x} && INCIDENTAL in Claimed(claims + {x}) by {
      assert Said(None, low, INCIDENTAL) in claims + {x};
    }
    forall s <- Statements(lex, INCIDENTAL) ensures Supported(lex, bar, claims + {x}, s) {
      assert Makes(lex, {}, x, s);
    }
  }

  lemma NobodyIsNotEnough(n: nat)
    ensures !Enough({}, n)
  {
    if n > 1 {
      forall group: set<Source> ensures !Group({}, group, n) {
        if group <= {} { assert group == {}; }
      }
    }
  }

  /** "Incidental" is such a spelling. */
  lemma Spelled(lex: Lexicon)
    ensures Ascii("Incidental") != INCIDENTAL && Statements(lex, Ascii("Incidental")) == Statements(lex, INCIDENTAL)
    ensures !Negated(Ascii("Incidental")) && !Negated(INCIDENTAL)
  {
    var a, b := Ascii("Incidental"), Ascii("incidental");
    assert a[0] == 73 && b[0] == 105;
    assert a[9] == 108 && b[9] == 108;
    assert StripLeft(a) == a && StripLeft(b) == b && StripRight(a) == a && StripRight(b) == b;
    assert a[1..] == b[1..];
    forall i | 0 <= i < 10 ensures Lower(a)[i] == Lower(b)[i] {
      if i > 0 { assert a[i] == a[1..][i - 1] && b[i] == b[1..][i - 1]; }
    }
    assert Lower(a) == Lower(b);
  }

  // -- whose word is enough -----------------------------------------------------------

  /** Nobody claims anything against a category here. */
  predicate NoCorrections(claims: set<Said>) {
    forall x <- claims :: x.category == [] || x.category[0] != 33
  }

  lemma NothingCancelled(lex: Lexicon, claims: set<Said>, category: Text)
    requires NoCorrections(claims)
    ensures Corrections(claims) == {} && !Cancels(lex, Corrections(claims), category)
    ensures forall x <- claims :: x.category in Claimed(claims)
  {
  }

  lemma CopiesAreOne(backers: set<Source>, a: Source, b: Source, n: nat)
    requires backers <= {a, b} && n >= 2 && (a.publisher == b.publisher || a.publisher in b.derivedFrom)
    ensures !Enough(backers, n)
  {
    forall group ensures !Group(backers, group, n) {
      if group <= {a, b} && Apart(group) {
        if a in group && b in group { assert a != b ==> !Dependent(a, b); }
        assert group == {} || group == {a} || group == {b};
      }
    }
  }

  /** A list and its copy do not corroborate each other: a category with a
      statement only the two make, at a bar of two or more, is held back. */
  lemma CopyIsNoSecond(lex: Lexicon, bar: Bar, claims: set<Said>, category: Text, s: Statement, a: Source, b: Source)
    requires NoCorrections(claims) && category != INCIDENTAL && (exists x <- claims :: x.category == category)
    requires s in Statements(lex, category) && Needed(s, bar) >= 2
    requires a.publisher == b.publisher || a.publisher in b.derivedFrom
    requires forall x <- claims | s in Statements(lex, x.category) ::
               x.source.trust != HIGH && (x.source.trust == MEDIUM ==> x.source in {a, b})
    ensures category in Weigh(lex, bar, claims, false).candidate
    ensures category in Weigh(lex, bar, claims, true).candidate
  {
    NothingCancelled(lex, claims, category);
    var backers := Backers(lex, {}, claims, s);
    assert backers <= {a, b};
    CopiesAreOne(backers, a, b, Needed(s, bar));
    assert !Supported(lex, bar, claims, s);
  }

  /** Two lists of which neither copies the other do, and so does one of high trust alone. */
  lemma TwoAreEnough(lex: Lexicon, bar: Bar, claims: set<Said>, category: Text, a: Said, b: Said)
    requires NoCorrections(claims) && category != INCIDENTAL && a in claims && b in claims
    requires a.category == category && b.category == category
    requires a.source.trust == HIGH
             || (a.source.trust == MEDIUM && b.source.trust == MEDIUM && a.source.publisher != b.source.publisher
                 && a.source.publisher !in b.source.derivedFrom && b.source.publisher !in a.source.derivedFrom
                 && forall s <- Statements(lex, category) :: Needed(s, bar) <= 2)
    ensures category in Weigh(lex, bar, claims, true).asserted
  {
    NothingCancelled(lex, claims, category);
    forall s <- Statements(lex, category) ensures Supported(lex, bar, claims, s) {
      assert Makes(lex, {}, a, s) && Makes(lex, {}, b, s);
      if a.source.trust != HIGH {
        var backers := Backers(lex, {}, claims, s);
        assert a.source in backers && b.source in backers;
        if Needed(s, bar) == 2 { assert Group(backers, {a.source, b.source}, 2); }
      }
    }
    assert !Marked(lex, bar, claims, true);
    assert Asserts(lex, bar, claims, true, category);
  }

  /** However many sources of low trust claim it, that alone asserts nothing. */
  lemma LowIsNotEnough(lex: Lexicon, bar: Bar, claims: set<Said>, category: Text, navigation: bool)
    requires forall x <- claims :: x.source.trust != MEDIUM && x.source.trust != HIGH
    ensures category !in Weigh(lex, bar, claims, navigation).asserted
  {
    assert Statements(lex, category) != {};
    var s :| s in Statements(lex, category);
    assert Backers(lex, Corrections(claims), claims, s) == {};
    NoneIsNotEnough(Needed(s, bar));
    assert !Supported(lex, bar, claims, s);
  }

  lemma NoneIsNotEnough(n: nat)
    ensures !Enough({}, n)
  {
    forall group: set<Source> ensures !Group({}, group, n) || n <= 1 {
      if group <= {} { assert group == {}; }
    }
  }

  /** A correction takes away every category that says all the corrected one says, and no other. */
  lemma CorrectionTakes(lex: Lexicon, bar: Bar, claims: set<Said>, x: Said, corrected: Text, category: Text,
                        navigation: bool)
    requires x in claims && x.category == [33] + corrected
    requires category in Claimed(claims) && category != INCIDENTAL
    ensures Statements(lex, corrected) <= Statements(lex, category) ==>
              category in Weigh(lex, bar, claims, navigation).suppressed
    ensures (forall y <- claims | y.category != [] && y.category[0] == 33 ::
               !(Statements(lex, y.category[1..]) <= Statements(lex, category))) ==>
              category !in Weigh(lex, bar, claims, navigation).suppressed
  {
    assert x.category[1..] == corrected;
    assert corrected in Corrections(claims);
  }

  /** A host that is only ever there on the way to another is left with its risks alone. */
  lemma IncidentalLeavesRisk(lex: Lexicon, bar: Bar, claims: set<Said>, mark: Said, category: Text, navigation: bool)
    requires NoCorrections(claims) && mark in claims && mark.category == Ascii("incidental")
    requires mark.source.trust == HIGH
    requires category in Weigh(lex, bar, claims, true).asserted
    ensures Weigh(lex, bar, claims, false).incidental && !Weigh(lex, bar, claims, true).incidental
    ensures category in Weigh(lex, bar, claims, false).asserted
            <==> forall s <- Statements(lex, category) :: s.facet == Some(Ascii("risk"))
    ensures category !in Weigh(lex, bar, claims, false).asserted ==>
              category in Weigh(lex, bar, claims, false).candidate
  {
    NothingCancelled(lex, claims, INCIDENTAL);
    forall s <- Statements(lex, INCIDENTAL) ensures Supported(lex, bar, claims, s) {
      assert Makes(lex, {}, mark, s);
    }
    NothingCancelled(lex, claims, category);
  }

  // -- what a category says, and how many must say it ----------------------------------

  /** A tab, a line end or the like, or a space. */
  predicate White(b: Byte) {
    b in {9, 10, 11, 12, 13, 28, 29, 30, 31, 32}
  }

  lemma {:induction false} LeftStripped(before: Text, word: Text)
    requires (forall b <- before :: White(b)) && (word != [] ==> !White(word[0]))
    ensures StripLeft(before + word) == word
  {
    if before == [] {
      assert before + word == word;
    } else {
      assert White(before[0]);
      LeftStripped(before[1..], word);
      assert (before + word)[1..] == before[1..] + word;
    }
  }

  lemma {:induction false} RightStripped(word: Text, after: Text)
    requires (forall b <- after :: White(b)) && (word != [] ==> !White(word[|word| - 1]))
    ensures StripRight(word + after) == word
  {
    if after == [] {
      assert word + after == word;
    } else {
      var n := |after| - 1;
      assert White(after[n]);
      RightStripped(word, after[..n]);
      assert (word + after)[..|word + after| - 1] == word + after[..n];
    }
  }

  /** A category goes by its letters in lower case, whatever blanks stand around it. */
  lemma SpelledAlike(before: Text, word: Text, after: Text)
    requires word != [] && !White(word[0]) && !White(word[|word| - 1])
    requires (forall b <- before :: White(b)) && (forall b <- after :: White(b))
    ensures var key := Key(before + word + after);
            |key| == |word| && forall i | 0 <= i < |word| ::
              key[i] == if word[i] in CAPITALS then word[i] + 32 else word[i]
  {
    assert before + word + after == before + (word + after);
    LeftStripped(before, word + after);
    RightStripped(word, after);
    Capitals();
  }

  const CAPITALS := Ascii("ABCDEFGHIJKLMNOPQRSTUVWXYZ")

  lemma Capitals()
    ensures forall b: Byte :: b in CAPITALS <==> 65 <= b <= 90
  {
    assert |CAPITALS| == 26 && forall k | 0 <= k < 26 :: CAPITALS[k] == 65 + k;
    forall b: Byte ensures b in CAPITALS <==> 65 <= b <= 90 {
      if 65 <= b <= 90 { assert CAPITALS[b - 65] == b; }
    }
  }

  /** What the taxonomy has under that spelling, and only its own name where it has nothing. */
  lemma SaysWhatIsListed(lex: Lexicon, category: Text)
    ensures var key := Key(category);
            && (key in lex.rows && lex.rows[key] != {} ==> Statements(lex, category) == lex.rows[key])
            && (key !in lex.rows || lex.rows[key] == {} ==> Statements(lex, category) == {Statement(None, [key])})
  {
  }

  lemma {:induction false} NoBranch(path: seq<Text>, n: nat, bar: Bar)
    requires n <= |path| && forall k | 0 < k <= n :: path[..k] !in bar.of
    ensures NeededBy(path, n, bar) == bar.default
  {
    if n > 0 { NoBranch(path, n - 1, bar); }
  }

  /** A statement needs as many as the most specific branch of its path with a
      bar of its own asks, and as many as are usual where none has one or the taxonomy does not know it. */
  lemma NeedsMostSpecific(s: Statement, bar: Bar, k: nat)
    ensures s.facet.None? || (forall j | 0 < j <= |s.path| :: s.path[..j] !in bar.of) ==> Needed(s, bar) == bar.default
    ensures (s.facet.Some? && 0 < k <= |s.path| && s.path[..k] in bar.of
             && forall j | k < j <= |s.path| :: s.path[..j] !in bar.of) ==>
              Needed(s, bar) == bar.of[s.path[..k]]
  {
    if s.facet.Some? {
      if forall j | 0 < j <= |s.path| :: s.path[..j] !in bar.of { NoBranch(s.path, |s.path|, bar); }
      if 0 < k <= |s.path| && s.path[..k] in bar.of && forall j | k < j <= |s.path| :: s.path[..j] !in bar.of {
        MostSpecific(s.path, |s.path|, bar, k);
      }
    }
  }
}
