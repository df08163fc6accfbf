/** What a lookup is labelled: the verdict on the name asked for, resolvers'
    votes on what it held back, and what its CNAME chain adds. */
module Lookups {
  import opened Wrappers
  import opened Names
  import opened Layout
  import opened Evidence
  import Resolvers

  // -- resolvers' votes -----------------------------------------------------------

  type Provider = Resolvers.Provider


  /** The source a provider's vote is recorded under: broad, like a medium trust list. */
  function SourceOf(p: Provider): Source {
    Source(p.name, p.publisher, MEDIUM, false, [])
  }

  /** Its vote, as a claim. */
  function VoteOf(p: Provider): Said {
    Said(None, SourceOf(p), p.vote)
  }

  /** A provider as they are: voting for something that is not the mark. */
  predicate Votes(lex: Lexicon, p: Provider) {
    !Negated(p.vote) && Statements(lex, p.vote) !! Statements(lex, INCIDENTAL)
  }

  /** What the taxonomy says of the categories they vote for; it does not know the mark. */
  predicate TaxonomyRows(lex: Lexicon) {
    && Resolvers.MALICIOUS in lex.rows && Resolvers.PORN in lex.rows
    && lex.rows[Resolvers.MALICIOUS] == {Statement(Some(RISK), [Ascii("threat"), Ascii("malicious")])}
    && lex.rows[Resolvers.PORN] == {Statement(Some(Ascii("purpose")), [Ascii("adult"), Ascii("pornography")])}
    && INCIDENTAL !in lex.rows
  }

  /** Nothing but small letters. */
  predicate Plain(s: Text) {
    s != [] && forall i | 0 <= i < |s| :: 97 <= s[i] <= 122
  }

  lemma PlainKey(s: Text)
    requires Plain(s)
    ensures Key(s) == s && !Negated(s)
  {
    assert !Blank(s[0]) && !Blank(s[|s| - 1]);
    assert Lower(s) == s;
  }

  lemma PlainWord(word: string)
    requires word != "" && forall i | 0 <= i < |word| :: 'a' <= word[i] <= 'z'
    ensures Plain(Ascii(word))
  {
  }

  /** With the taxonomy as it is, every resolver there is votes for
      something that says nothing the mark says. */
  lemma ProvidersVote(lex: Lexicon)
    requires TaxonomyRows(lex)
    ensures forall p <- Resolvers.PROVIDERS :: Votes(lex, p)
  {
    PlainWord("malicious");
    PlainWord("porn");
    PlainWord("incidental");
    PlainKey(Resolvers.MALICIOUS);
    PlainKey(Resolvers.PORN);
    PlainKey(INCIDENTAL);
  }

  /** A vote could settle something: a candidate a medium trust claim names, saying all the vote says. */
  predicate Qualifies(lex: Lexicon, p: Provider, claims: seq<Said>, v: Verdict) {
    && (v.incidental ==> IsRisk(lex, p.vote))
    && exists x <- claims :: x.source.trust == MEDIUM && x.category in v.candidate
                             && Statements(lex, p.vote) <= Statements(lex, x.category)
  }

  /** A medium trust claim, not corrected, says all the vote says. */
  predicate Backed(lex: Lexicon, claims: set<Said>, vote: Text) {
    exists x <- claims :: Backs(lex, claims, vote, x)
  }

  predicate Backs(lex: Lexicon, claims: set<Said>, vote: Text, x: Said) {
    && x.source.trust == MEDIUM && !Negated(x.category) && !Cancels(lex, Corrections(claims), x.category)
    && Statements(lex, vote) <= Statements(lex, x.category)
  }

  lemma QualifiedIsBacked(lex: Lexicon, bar: Bar, p: Provider, claims: seq<Said>)
    requires Qualifies(lex, p, claims, Weigh(lex, bar, Elements(claims), false))
    ensures Backed(lex, Elements(claims), p.vote) && !Cancels(lex, Corrections(Elements(claims)), p.vote)
  {
    var v := Weigh(lex, bar, Elements(claims), false);
    var x :| x in claims && x.source.trust == MEDIUM && x.category in v.candidate
             && Statements(lex, p.vote) <= Statements(lex, x.category);
    assert x in Elements(claims) && Backs(lex, Elements(claims), p.vote, x);
  }

  predicate Shares(lex: Lexicon, category: Text, vote: Text) {
    !(Statements(lex, category) !! Statements(lex, vote))
  }

  /** What one vote does to the verdict. */
  lemma VoteStep(lex: Lexicon, bar: Bar, claims: set<Said>, p: Provider)
    requires Votes(lex, p) && !Cancels(lex, Corrections(claims), p.vote)
    ensures var v := Weigh(lex, bar, claims, false);
            var w := Weigh(lex, bar, claims + {VoteOf(p)}, false);
            && v.asserted <= w.asserted && w.suppressed == v.suppressed && w.corrected == v.corrected
            && w.incidental == v.incidental
            && forall c <- w.asserted - v.asserted :: Shares(lex, c, p.vote)
  {
    var x := VoteOf(p);
    var v, w := Weigh(lex, bar, claims, false), Weigh(lex, bar, claims + {x}, false);
    var mark :| mark in Statements(lex, INCIDENTAL);
    AddingElsewhere(lex, bar, claims, x, false);
    assert Corrections(claims + {x}) == Corrections(claims);
    assert Claimed(claims + {x}) == Claimed(claims) + {p.vote};
    assert w.suppressed == v.suppressed;
    forall c <- w.asserted | !Shares(lex, c, p.vote) ensures c in v.asserted {
      var made :| made in Statements(lex, c);
      assert !(Statements(lex, c) !! Statements(lex, c));
      assert c != p.vote && c in Claimed(claims);
      assert Statements(lex, x.category) !! Statements(lex, c);
      BelievedStill(lex, bar, claims, x, c);
    }
  }

  /** A category newly asserted makes a statement of a vote that was cast, and a list claim backed that vote. */
  predicate Told(lex: Lexicon, claims: set<Said>, cast: set<Text>, c: Text) {
    exists vote <- cast :: Shares(lex, c, vote) && Backed(lex, claims, vote)
  }

  /** The verdict only gained, and only what cast votes say. */
  ghost predicate Promoted(lex: Lexicon, claims: set<Said>, cast: set<Text>, v: Verdict, w: Verdict) {
    && v.asserted <= w.asserted && w.suppressed == v.suppressed
    && w.corrected == v.corrected && w.incidental == v.incidental
    && forall c <- w.asserted - v.asserted :: Told(lex, claims, cast, c)
  }

  lemma PromotedNext(lex: Lexicon, claims: set<Said>, cast: set<Text>, v: Verdict, w: Verdict, w': Verdict, vote: Text)
    requires Promoted(lex, claims, cast, v, w) && Backed(lex, claims, vote)
    requires w.asserted <= w'.asserted && w'.suppressed == w.suppressed
    requires w'.corrected == w.corrected && w'.incidental == w.incidental
    requires forall c <- w'.asserted - w.asserted :: Shares(lex, c, vote)
    ensures Promoted(lex, claims, cast + {vote}, v, w')
  {
    forall c <- w'.asserted - v.asserted ensures Told(lex, claims, cast + {vote}, c) {
      if c in w.asserted {
        assert c in w.asserted - v.asserted && Told(lex, claims, cast, c);
        var u :| u in cast && Shares(lex, c, u) && Backed(lex, claims, u);
        assert u in cast + {vote};
      } else {
        assert vote in cast + {vote};
      }
    }
  }

  /** The claims are the lists' and cast votes, each vote backed by a list. */
  ghost predicate VotedOn(lex: Lexicon, lists: set<Said>, cast: set<Text>, claims: set<Said>) {
    && lists <= claims && Corrections(claims) == Corrections(lists)
    && (forall x <- claims :: x in lists || (x.category in cast && !Negated(x.category)))
    && forall vote <- cast :: Backed(lex, lists, vote)
  }

  /** What backs a vote on the claims as they stand goes back to a list. */
  lemma BackedByList(lex: Lexicon, lists: set<Said>, cast: set<Text>, claims: set<Said>, vote: Text)
    requires VotedOn(lex, lists, cast, claims) && Backed(lex, claims, vote)
    ensures Backed(lex, lists, vote)
  {
    var x :| x in claims && Backs(lex, claims, vote, x);
    if x in lists {
      assert Backs(lex, lists, vote, x);
    } else {
      var y :| y in lists && Backs(lex, lists, x.category, y);
      assert Backs(lex, lists, vote, y);
    }
  }

  /** What each provider said, as far as it was asked. */
  type Statuses = seq<Option<Resolvers.Status>>

  /** The votes of the providers that said the name is blocked. */
  function Cast(providers: seq<Provider>, said: Statuses): seq<Said>
    requires |said| == |providers|
  {
    if said == [] then []
    else
      var n := |said| - 1;
      Cast(providers[..n], said[..n]) + if said[n] == Some(Resolvers.Blocked) then [VoteOf(providers[n])] else []
  }

  lemma CastNext(providers: seq<Provider>, said: Statuses, status: Option<Resolvers.Status>)
    requires |said| < |providers|
    ensures Cast(providers[..|said| + 1], said + [status])
            == Cast(providers[..|said|], said)
               + if status == Some(Resolvers.Blocked) then [VoteOf(providers[|said|])] else []
  {
    var n, ps, all := |said|, providers[..|said| + 1], said + [status];
    assert |all| - 1 == n && ps[..n] == providers[..n] && all[..n] == said && ps[n] == providers[n] && all[n] == status;
  }

  /** What those votes are for. */
  function CastFor(votes: seq<Said>): set<Text> {
    set x | x in votes :: x.category
  }

  /** The i-th provider was asked exactly if its vote could settle something on
      the claims and the verdict as the votes before it had left them. */
  ghost predicate AskedWhere(lex: Lexicon, bar: Bar, providers: seq<Provider>, said: Statuses, lists: seq<Said>, i: nat)
    requires i < |said| <= |providers|
  {
    var claims := lists + Cast(providers[..i], said[..i]);
    said[i].Some? <==> Qualifies(lex, providers[i], claims, Weigh(lex, bar, Elements(claims), false))
  }

  /** A provider said the name is blocked only on what it and its unfiltered resolver answered. */
  ghost predicate Answered(checker: Resolvers.Checker, providers: seq<Provider>, said: Statuses, host: Text)
    requires |said| <= |providers|
    reads checker`history, checker`asked
  {
    forall i | 0 <= i < |said| && said[i] == Some(Resolvers.Blocked) :: BlockedBy(checker, providers[i], host)
  }

  ghost predicate BlockedBy(checker: Resolvers.Checker, p: Provider, host: Text)
    reads checker`history, checker`asked
  {
    exists s <- checker.history :: checker.Answers(s, p, host, Resolvers.Blocked)
  }

  /** Asks one provider more; what rested on answers before still does. */
  method AskMore(checker: Resolvers.Checker, ghost providers: seq<Provider>, ghost said: Statuses, p: Provider,
                 host: Text, deadline: Option<Resolvers.Time>) returns (status: Resolvers.Status)
    requires checker.Valid() && |said| <= |providers| && Answered(checker, providers, said, host)
    modifies checker
    ensures checker.Valid() && Answered(checker, providers, said, host)
    ensures status == Resolvers.Blocked ==> BlockedBy(checker, p, host)
  {
    ghost var before := checker.history;
    label Then:
    status := checker.StatusOf(p, host, deadline);
    forall i | 0 <= i < |said| && said[i] == Some(Resolvers.Blocked) ensures BlockedBy(checker, providers[i], host) {
      assert old@Then(BlockedBy(checker, providers[i], host));
      ghost var s :| s in before && old@Then(checker.Answers(s, providers[i], host, Resolvers.Blocked));
      assert checker.Answers(s, providers[i], host, Resolvers.Blocked);
    }
  }

  lemma AskedStill(lex: Lexicon, bar: Bar, providers: seq<Provider>, said: Statuses, lists: seq<Said>,
                   status: Option<Resolvers.Status>, k: nat)
    requires k < |said| < |providers| && AskedWhere(lex, bar, providers, said, lists, k)
    ensures AskedWhere(lex, bar, providers, said + [status], lists, k)
  {
    assert (said + [status])[..k] == said[..k] && (said + [status])[k] == said[k];
  }

  lemma AskedLast(lex: Lexicon, bar: Bar, providers: seq<Provider>, said: Statuses, lists: seq<Said>,
                  status: Option<Resolvers.Status>, claims: seq<Said>, w: Verdict)
    requires |said| < |providers| && claims == lists + Cast(providers[..|said|], said)
    requires w == Weigh(lex, bar, Elements(claims), false)
    requires status.Some? <==> Qualifies(lex, providers[|said|], claims, w)
    ensures AskedWhere(lex, bar, providers, said + [status], lists, |said|)
  {
    assert (said + [status])[..|said|] == said && (said + [status])[|said|] == status;
  }

  ghost predicate AllAskedWhere(lex: Lexicon, bar: Bar, providers: seq<Provider>, said: Statuses, lists: seq<Said>)
    requires |said| <= |providers|
  {
    forall i | 0 <= i < |said| :: AskedWhere(lex, bar, providers, said, lists, i)
  }

  lemma AllAskedNext(lex: Lexicon, bar: Bar, providers: seq<Provider>, said: Statuses, lists: seq<Said>,
                     status: Option<Resolvers.Status>, claims: seq<Said>, w: Verdict)
    requires |said| < |providers| && claims == lists + Cast(providers[..|said|], said)
    requires w == Weigh(lex, bar, Elements(claims), false)
    requires status.Some? <==> Qualifies(lex, providers[|said|], claims, w)
    requires AllAskedWhere(lex, bar, providers, said, lists)
    ensures AllAskedWhere(lex, bar, providers, said + [status], lists)
  {
    forall k | 0 <= k <= |said| ensures AskedWhere(lex, bar, providers, said + [status], lists, k) {
      if k < |said| {
        AskedStill(lex, bar, providers, said, lists, status, k);
      } else {
        AskedLast(lex, bar, providers, said, lists, status, claims, w);
      }
    }
  }

  /** These votes were counted on top of what the lists claim. */
  ghost predicate Counted(lex: Lexicon, bar: Bar, lists: seq<Said>, votes: seq<Said>, claims: seq<Said>,
                          v: Verdict, w: Verdict)
  {
    && claims == lists + votes && w == Weigh(lex, bar, Elements(claims), false)
    && VotedOn(lex, Elements(lists), CastFor(votes), Elements(claims))
    && Promoted(lex, Elements(lists), CastFor(votes), v, w)
  }

  /** Counts the provider's vote, if it said the name is blocked. */
  method Count(lex: Lexicon, bar: Bar, ghost lists: seq<Said>, ghost votes: seq<Said>, claims0: seq<Said>,
               ghost v: Verdict, w0: Verdict, p: Provider, status: Option<Resolvers.Status>)
    returns (claims: seq<Said>, w: Verdict)
    requires Votes(lex, p) && Counted(lex, bar, lists, votes, claims0, v, w0)
    requires status.Some? ==> Qualifies(lex, p, claims0, w0)
    ensures var vote := if status == Some(Resolvers.Blocked) then [VoteOf(p)] else [];
            Counted(lex, bar, lists, votes + vote, claims, v, w)
    ensures status == None ==> w == w0
  {
    if status != Some(Resolvers.Blocked) {
      assert votes + [] == votes;
      return claims0, w0;
    }
    claims := claims0 + [VoteOf(p)];
    w := Resolve(lex, bar, claims, false);
    VoteCounts(lex, bar, lists, votes, claims0, v, w0, p);
  }

  lemma VoteCounts(lex: Lexicon, bar: Bar, lists: seq<Said>, votes: seq<Said>, claims: seq<Said>,
                   v: Verdict, w: Verdict, p: Provider)
    requires Votes(lex, p) && Counted(lex, bar, lists, votes, claims, v, w) && Qualifies(lex, p, claims, w)
    ensures var more := claims + [VoteOf(p)];
            Counted(lex, bar, lists, votes + [VoteOf(p)], more, v, Weigh(lex, bar, Elements(more), false))
  {
    var more := claims + [VoteOf(p)];
    assert Elements(more) == Elements(claims) + {VoteOf(p)} && more == lists + (votes + [VoteOf(p)]);
    assert CastFor(votes + [VoteOf(p)]) == CastFor(votes) + {p.vote};
    QualifiedIsBacked(lex, bar, p, claims);
    BackedByList(lex, Elements(lists), CastFor(votes), Elements(claims), p.vote);
    VoteStep(lex, bar, Elements(claims), p);
    PromotedNext(lex, Elements(lists), CastFor(votes), v, w, Weigh(lex, bar, Elements(more), false), p.vote);
    assert Corrections(Elements(more)) == Corrections(Elements(claims));
  }

  /** How far asking the resolvers in turn has come. */
  ghost predicate Underway(lex: Lexicon, bar: Bar, providers: seq<Provider>, said: Statuses, lists: seq<Said>,
                           v: Verdict, claims: seq<Said>, w: Verdict)
    requires |said| <= |providers|
  {
    && AllAskedWhere(lex, bar, providers, said, lists)
    && Counted(lex, bar, lists, Cast(providers[..|said|], said), claims, v, w)
    && (v.candidate == {} ==> w == v && forall k | 0 <= k < |said| :: said[k] == None)
  }

  /** Asks the resolvers in turn, each only where its vote could settle
      something as the verdict then stands, and counts the votes of those that block. */
  method Corroborate(lex: Lexicon, bar: Bar, providers: seq<Provider>, checker: Resolvers.Checker, throttled: bool,
                     host: Text, lists: seq<Said>, v: Verdict)
    returns (claims: seq<Said>, w: Verdict, said: Statuses)
    requires checker.Valid() && v == Weigh(lex, bar, Elements(lists), false)
    requires forall p <- providers :: Votes(lex, p)
    modifies checker
    ensures checker.Valid() && |said| == |providers| && Answered(checker, providers, said, host)
    ensures AllAskedWhere(lex, bar, providers, said, lists)
    ensures claims == lists + Cast(providers, said) && w == Weigh(lex, bar, Elements(claims), false)
    ensures Promoted(lex, Elements(lists), CastFor(Cast(providers, said)), v, w)
    ensures v.candidate == {} ==> w == v && forall i | 0 <= i < |said| :: said[i] == None
  {
    var deadline := None;
    if !throttled {
      var now := checker.Now();
      deadline := Some(now + checker.timeout);
    }
    claims, w, said := lists, v, [];
    NoneYet(lex, bar, providers, lists, v);
    for i := 0 to |providers|
      invariant checker.Valid() && |said| == i && Answered(checker, providers, said, host)
      invariant Underway(lex, bar, providers, said, lists, v, claims, w)
    {
      assert providers[i] in providers;
      claims, w, said := OneMore(lex, bar, providers, checker, deadline, host, lists, v, claims, w, said);
    }
    assert providers[..|providers|] == providers;
  }

  lemma NoneYet(lex: Lexicon, bar: Bar, providers: seq<Provider>, lists: seq<Said>, v: Verdict)
    requires v == Weigh(lex, bar, Elements(lists), false)
    ensures Underway(lex, bar, providers, [], lists, v, lists, v)
  {
    assert lists + [] == lists && CastFor([]) == {};
  }

  /** Asks the next provider, if its vote could settle something. */
  method OneMore(lex: Lexicon, bar: Bar, providers: seq<Provider>, checker: Resolvers.Checker,
                 deadline: Option<Resolvers.Time>, host: Text, ghost lists: seq<Said>, ghost v: Verdict,
                 claims0: seq<Said>, w0: Verdict, said0: Statuses)
    returns (claims: seq<Said>, w: Verdict, said: Statuses)
    requires checker.Valid() && |said0| < |providers| && Votes(lex, providers[|said0|])
    requires Answered(checker, providers, said0, host) && Underway(lex, bar, providers, said0, lists, v, claims0, w0)
    modifies checker
    ensures checker.Valid() && |said| == |said0| + 1 && Answered(checker, providers, said, host)
    ensures Underway(lex, bar, providers, said, lists, v, claims, w)
  {
    var p := providers[|said0|];
    var status := None;
    if Qualifies(lex, p, claims0, w0) {
      var found := AskMore(checker, providers, said0, p, host, deadline);
      status := Some(found);
    }
    said := said0 + [status];
    claims, w := Count(lex, bar, lists, Cast(providers[..|said0|], said0), claims0, v, w0, p, status);
    OneMoreCounted(lex, bar, providers, said0, lists, v, claims0, w0, status, claims, w);
  }

  lemma OneMoreCounted(lex: Lexicon, bar: Bar, providers: seq<Provider>, said: Statuses, lists: seq<Said>, v: Verdict,
                       claims0: seq<Said>, w0: Verdict, status: Option<Resolvers.Status>, claims: seq<Said>, w: Verdict)
    requires |said| < |providers| && Underway(lex, bar, providers, said, lists, v, claims0, w0)
    requires var p := providers[|said|];
             && (status.Some? <==> Qualifies(lex, p, claims0, w0)) && (status == None ==> w == w0)
             && var vote := if status == Some(Resolvers.Blocked) then [VoteOf(p)] else [];
                Counted(lex, bar, lists, Cast(providers[..|said|], said) + vote, claims, v, w)
    ensures Underway(lex, bar, providers, said + [status], lists, v, claims, w)
  {
    AllAskedNext(lex, bar, providers, said, lists, status, claims0, w0);
    CastNext(providers, said, status);
  }

  /** A list's claim, the mark made by a low trust source, and a category nobody doubts. */
  function Doubtful(x: Text, category: Text, a: Source, low: Source, high: Source): seq<Said> {
    [Said(None, a, x), Said(None, low, INCIDENTAL), Said(None, high, category)]
  }

  predicate DoubtfulCase(lex: Lexicon, bar: Bar, x: Text, category: Text, a: Source, low: Source, high: Source) {
    && a.trust == MEDIUM && low.trust == LOW && high.trust == HIGH
    && !Negated(x) && !Negated(category) && !Negated(INCIDENTAL) && x != INCIDENTAL
    && Statements(lex, x) == Statements(lex, INCIDENTAL) && (forall s <- Statements(lex, x) :: Needed(s, bar) == 2)
    && !IsRisk(lex, category) && Statements(lex, category) !! Statements(lex, x)
  }

  lemma BeforeVote(lex: Lexicon, bar: Bar, x: Text, category: Text, a: Source, low: Source, high: Source)
    requires DoubtfulCase(lex, bar, x, category, a, low, high)
    ensures var v := Weigh(lex, bar, Elements(Doubtful(x, category, a, low, high)), false);
            category in v.asserted && x in v.candidate && !v.incidental
  {
    var claims := Doubtful(x, category, a, low, high);
    var all := Elements(claims);
    DoubtfulClaims(x, category, a, low, high);
    forall s <- Statements(lex, category) ensures Supported(lex, bar, all, s) { assert Makes(lex, {}, claims[2], s); }
    var made :| made in Statements(lex, x);
    DoubtfulBackers(lex, bar, x, category, a, low, high, made);
    OneIsNotTwo(lex, bar, all, made, a);
  }

  lemma DoubtfulClaims(x: Text, category: Text, a: Source, low: Source, high: Source)
    requires !Negated(x) && !Negated(category) && !Negated(INCIDENTAL)
    ensures var all := Elements(Doubtful(x, category, a, low, high));
            && all == {Said(None, a, x), Said(None, low, INCIDENTAL), Said(None, high, category)}
            && Corrections(all) == {} && Claimed(all) == {x, INCIDENTAL, category}
  {
    var claims := Doubtful(x, category, a, low, high);
    assert Elements(claims) == {claims[0], claims[1], claims[2]};
  }

  /** Only the medium source stands behind what the mark says. */
  lemma DoubtfulBackers(lex: Lexicon, bar: Bar, x: Text, category: Text, a: Source, low: Source, high: Source,
                        s: Statement)
    requires DoubtfulCase(lex, bar, x, category, a, low, high) && s in Statements(lex, x)
    ensures var all := Elements(Doubtful(x, category, a, low, high));
            !Trusted(lex, {}, all, s) && Backers(lex, {}, all, s) <= {a}
  {
    DoubtfulClaims(x, category, a, low, high);
  }

  lemma AfterVote(lex: Lexicon, bar: Bar, x: Text, category: Text, a: Source, low: Source, high: Source, b: Source,
                  vote: Text)
    requires DoubtfulCase(lex, bar, x, category, a, low, high)
    requires b.trust == MEDIUM && !Dependent(a, b) && !Negated(vote)
    requires Statements(lex, vote) == Statements(lex, INCIDENTAL)
    ensures var all := Elements(Doubtful(x, category, a, low, high)) + {Said(None, b, vote)};
            category !in Weigh(lex, bar, all, false).asserted
  {
    var claims := Doubtful(x, category, a, low, high);
    var cast := Said(None, b, vote);
    var all := Elements(claims) + {cast};
    assert Corrections(all) == {};
    assert claims[0] in all && claims[1] in all;
    assert INCIDENTAL in Claimed(all);
    forall s <- Statements(lex, INCIDENTAL) ensures Supported(lex, bar, all, s) {
      TwoAgree(lex, bar, all, claims[0], cast, s);
    }
  }

  lemma TwoAgree(lex: Lexicon, bar: Bar, claims: set<Said>, y: Said, z: Said, s: Statement)
    requires Corrections(claims) == {} && y in claims && z in claims && Makes(lex, {}, y, s) && Makes(lex, {}, z, s)
    requires y.source.trust == MEDIUM && z.source.trust == MEDIUM && !Dependent(y.source, z.source)
    requires Needed(s, bar) == 2
    ensures Supported(lex, bar, claims, s)
  {
    var backers := Backers(lex, {}, claims, s);
    assert y.source in backers && z.source in backers && y.source != z.source;
    assert Group(backers, {y.source, z.source}, 2);
  }

  /** A vote that said what the mark says could un-assert a category: with a
      list's claim it would support the mark a low trust source made. */
  lemma VoteOfTheMarkUndoes(lex: Lexicon, bar: Bar, p: Provider, x: Text, category: Text, a: Source, low: Source,
                            high: Source)
    requires DoubtfulCase(lex, bar, x, category, a, low, high)
    requires !Dependent(a, SourceOf(p)) && !Negated(p.vote)
    requires Statements(lex, p.vote) == Statements(lex, INCIDENTAL)
    ensures var claims := Doubtful(x, category, a, low, high);
            && Qualifies(lex, p, claims, Weigh(lex, bar, Elements(claims), false))
            && category in Weigh(lex, bar, Elements(claims), false).asserted
            && category !in Weigh(lex, bar, Elements(claims) + {VoteOf(p)}, false).asserted
  {
    BeforeVote(lex, bar, x, category, a, low, high);
    AfterVote(lex, bar, x, category, a, low, high, SourceOf(p), p.vote);
    assert Doubtful(x, category, a, low, high)[0] in Doubtful(x, category, a, low, high);
  }

  lemma OneIsNotTwo(lex: Lexicon, bar: Bar, claims: set<Said>, s: Statement, a: Source)
    requires Corrections(claims) == {} && Needed(s, bar) == 2 && !Trusted(lex, {}, claims, s)
    requires Backers(lex, {}, claims, s) <= {a}
    ensures !Supported(lex, bar, claims, s)
  {
    forall group: set<Source> ensures !Group(Backers(lex, {}, claims, s), group, 2) {
      if group <= {a} { assert group == {} || group == {a}; }
    }
  }

  // -- the CNAME chain ---------------------------------------------------------------

  /** What a lookup's event carries. */
  datatype Labels = Labels(contexts: set<Text>, candidate: set<Text>, suppressed: set<Text>)

  /** A verdict as resolve gives it. */
  predicate Sound(lex: Lexicon, v: Verdict) {
    && v.asserted !! v.candidate !! v.suppressed
    && (v.incidental ==> forall c <- v.asserted :: IsRisk(lex, c))
    && (forall c <- v.asserted + v.candidate :: !Cancels(lex, v.corrected, c))
    && (forall c <- v.suppressed :: Cancels(lex, v.corrected, c))
  }

  /** Where the chain's category goes, by the corrections and the mark of the name asked for. */
  predicate Placed(lex: Lexicon, v: Verdict, e: Labels, c: Text) {
    if Cancels(lex, v.corrected, c) then c in e.suppressed
    else if v.incidental && !IsRisk(lex, c) then c in e.candidate
    else c in e.contexts
  }

  /** Adds what the chain is believed to be, under the corrections and the mark of the name asked for. */
  method MergeChain(lex: Lexicon, v: Verdict, chain: set<Text>) returns (e: Labels)
    requires Sound(lex, v)
    ensures e.contexts !! e.candidate !! e.suppressed
    ensures v.asserted <= e.contexts <= v.asserted + chain
    ensures forall c <- e.contexts :: !Cancels(lex, v.corrected, c)
    ensures v.incidental ==> forall c <- e.contexts :: IsRisk(lex, c)
    ensures forall c <- chain :: Placed(lex, v, e, c)
    ensures v.suppressed <= e.suppressed <= v.suppressed + chain
    ensures v.candidate <= e.candidate + e.contexts && e.candidate <= v.candidate + chain
  {
    e := Labels(v.asserted, v.candidate, v.suppressed);
    if chain == {} { return; }
    var cancelled := set c | c in chain && Cancels(lex, v.corrected, c);
    var added := chain - cancelled;
    if cancelled != {} { e := e.(suppressed := e.suppressed + cancelled); }
    var demoted := {};
    if v.incidental {
      demoted := set c | c in added && !IsRisk(lex, c);
      added := added - demoted;
    }
    e := e.(contexts := e.contexts + added, candidate := (e.candidate + demoted) - added);
  }

  /** The whole of a lookup in index mode: the name is weighed, resolvers asked
      about what it holds back, and its chain, weighed together, merged in. */
  method CategoriseLookup(lex: Lexicon, bar: Bar, host: Text, claims: seq<Said>, providers: seq<Provider>,
                          checker: Resolvers.Checker, chain: seq<Said>) returns (e: Labels, v: Verdict, said: Statuses)
    requires checker.Valid() && forall p <- providers :: Votes(lex, p)
    modifies checker
    ensures checker.Valid() && |said| == |providers| && Answered(checker, providers, said, host)
    ensures v == Weigh(lex, bar, Elements(claims + Cast(providers, said)), false)
    ensures Weigh(lex, bar, Elements(claims), false).asserted <= v.asserted
    ensures v.corrected == Corrections(Elements(claims)) && v.incidental == Marked(lex, bar, Elements(claims), false)
    ensures v.asserted <= e.contexts <= v.asserted + Weigh(lex, bar, Elements(chain), false).asserted
    ensures forall c <- Weigh(lex, bar, Elements(chain), false).asserted :: Placed(lex, v, e, c)
    ensures e.contexts !! e.candidate !! e.suppressed
    ensures forall c <- e.contexts, d | d in v.corrected :: !(Statements(lex, d) <= Statements(lex, c))
    ensures v.incidental ==> forall c <- e.contexts :: IsRisk(lex, c)
  {
    var first := Resolve(lex, bar, claims, false);
    var voted;
    voted, v, said := Corroborate(lex, bar, providers, checker, false, host, claims, first);
    ListsApart(lex, bar, Elements(voted), false);
    var linked := Resolve(lex, bar, chain, false);
    e := MergeChain(lex, v, linked.asserted);
  }
}
