/** How much of each list another repeats: names counted once for each
    combination of sources that holds them, instead of name by name. */
module Independence {
  import opened Wrappers
  import opened Names
  import opened Layout
  import opened Reading
  import opened Index
  import Builder

  // -- masks --------------------------------------------------------------------

  function PowerOfTwo(i: nat): nat {
    if i == 0 then 1 else 2 * PowerOfTwo(i - 1)
  }

  function ShiftRight(mask: nat, i: nat): nat {
    if i == 0 then mask else ShiftRight(mask / 2, i - 1)
  }

  predicate Bit(mask: nat, i: nat) {
    ShiftRight(mask, i) % 2 == 1
  }

  function Or(a: nat, b: nat): nat
    decreases a + b
  {
    if a == 0 then b else if b == 0 then a
    else (if a % 2 == 1 || b % 2 == 1 then 1 else 0) + 2 * Or(a / 2, b / 2)
  }

  lemma {:induction false} BitOfZero(i: nat)
    ensures !Bit(0, i)
  {
    if i > 0 { BitOfZero(i - 1); }
  }

  lemma {:induction false} BitOfPower(i: nat, j: nat)
    ensures Bit(PowerOfTwo(i), j) <==> i == j
  {
    if i > 0 && j > 0 {
      BitOfPower(i - 1, j - 1);
      assert PowerOfTwo(i) / 2 == PowerOfTwo(i - 1);
    } else if j > 0 {
      BitOfZero(j - 1);
    }
  }

  lemma {:induction false} BitOfOr(a: nat, b: nat, i: nat)
    ensures Bit(Or(a, b), i) <==> Bit(a, i) || Bit(b, i)
  {
    BitOfZero(i);
    if a != 0 && b != 0 {
      var low := if a % 2 == 1 || b % 2 == 1 then 1 else 0;
      assert Or(a, b) == low + 2 * Or(a / 2, b / 2);
      assert Or(a, b) / 2 == Or(a / 2, b / 2) && Or(a, b) % 2 == low;
      if i > 0 { BitOfOr(a / 2, b / 2, i - 1); }
    }
  }

  // -- what is measured -----------------------------------------------------------

  /** A name without what lists disagree about: a leading *. and then a leading www. */
  function Normalise(key: Text): Text {
    var bare := if |key| >= 2 && key[..2] == [STAR, DOT] then key[2..] else key;
    if |bare| >= 4 && bare[..4] == WWW + [DOT] then bare[4..] else bare
  }

  predicate Starts(name: Text, prefix: Text) {
    |prefix| <= |name| && name[..|prefix|] == prefix
  }

  /** The four spellings lists have of a name are one name. */
  lemma SpellingsAreOne(name: Text)
    requires !Starts(name, Ascii("*.")) && !Starts(name, Ascii("www."))
    ensures Normalise(name) == name && Normalise(Ascii("*.") + name) == name
    ensures Normalise(Ascii("www.") + name) == name && Normalise(Ascii("*.www.") + name) == name
  {
    var star, www, both := Ascii("*."), Ascii("www."), Ascii("*.www.");
    assert star == [STAR, DOT] && www == WWW + [DOT] && both == star + www;
    assert (star + name)[..2] == star && (star + name)[2..] == name;
    assert (www + name)[..4] == www && (www + name)[4..] == name;
    assert (www + name)[..2][0] == 119 && star[0] == 42;
    assert (both + name)[..2] == star && (both + name)[2..] == www + name;
  }

  type Entry = (Text, seq<(Source, Text)>)

  predicate ClaimedBy(claims: seq<(Source, Text)>, name: Text) {
    exists c <- claims :: !c.0.local && c.0.name == name
  }

  /** The distinct normalised names a source that is not local holds. */
  function HeldBy(entries: seq<Entry>, name: Text): set<Text> {
    set e | e in entries && ClaimedBy(e.1, name) :: Normalise(e.0)
  }

  function External(sources: seq<Source>): seq<Source> {
    if sources == [] then []
    else External(sources[..|sources| - 1]) + if sources[|sources| - 1].local then [] else [sources[|sources| - 1]]
  }

  predicate OneNameEach(sources: seq<Source>) {
    forall i, j | 0 <= i < j < |sources| :: sources[i].name != sources[j].name
  }

  /** Every claim's source is one of these or local, and no two have one name. */
  predicate Attributed(entries: seq<Entry>, sources: seq<Source>) {
    && OneNameEach(sources)
    && forall e <- entries, c <- e.1 :: c.0.local || Among(sources, c.0.name)
  }

  predicate Among(sources: seq<Source>, name: Text) {
    exists i :: 0 <= i < |sources| && sources[i].name == name
  }

  // -- who holds what ---------------------------------------------------------------

  /** The sources of one entry, as a mask. */
  method MaskOf(claims: seq<(Source, Text)>, sources: seq<Source>) returns (mask: nat)
    requires OneNameEach(sources)
    requires forall c <- claims :: c.0.local || Among(sources, c.0.name)
    ensures forall i | 0 <= i < |sources| :: Bit(mask, i) <==> ClaimedBy(claims, sources[i].name)
    ensures mask == 0 <==> forall c <- claims :: c.0.local
  {
    mask := 0;
    forall i: nat ensures !Bit(0, i) { BitOfZero(i); }
    for k := 0 to |claims|
      invariant forall i | 0 <= i < |sources| :: Bit(mask, i) <==> ClaimedBy(claims[..k], sources[i].name)
      invariant mask == 0 <==> forall c <- claims[..k] :: c.0.local
    {
      assert claims[..k + 1] == claims[..k] + [claims[k]];
      assert claims[k] in claims;
      if !claims[k].0.local {
        var at := IndexOf(sources, claims[k].0.name);
        OrOne(mask, at);
        forall i | 0 <= i < |sources|
          ensures Bit(Or(mask, PowerOfTwo(at)), i) <==> ClaimedBy(claims[..k + 1], sources[i].name)
        {
          BitOfOr(mask, PowerOfTwo(at), i);
          BitOfPower(at, i);
          ClaimedMore(claims[..k], claims[k], sources[i].name);
        }
        mask := Or(mask, PowerOfTwo(at));
      } else {
        forall i | 0 <= i < |sources|
          ensures ClaimedBy(claims[..k + 1], sources[i].name) <==> ClaimedBy(claims[..k], sources[i].name)
        {
          ClaimedMore(claims[..k], claims[k], sources[i].name);
        }
      }
    }
    assert claims[..|claims|] == claims;
  }

  lemma ClaimedMore(claims: seq<(Source, Text)>, c: (Source, Text), name: Text)
    ensures ClaimedBy(claims + [c], name) <==> ClaimedBy(claims, name) || (!c.0.local && c.0.name == name)
  {
    if ClaimedBy(claims, name) {
      var x :| x in claims && !x.0.local && x.0.name == name;
      assert x in claims + [c];
    }
    assert c in claims + [c];
  }

  lemma OrOne(mask: nat, at: nat)
    ensures Or(mask, PowerOfTwo(at)) != 0
  {
    BitOfOr(mask, PowerOfTwo(at), at);
    BitOfPower(at, at);
    BitOfZero(at);
  }

  /** The position of a source's bit. */
  method IndexOf(sources: seq<Source>, name: Text) returns (at: nat)
    requires Among(sources, name)
    ensures at < |sources| && sources[at].name == name
  {
    at := 0;
    while sources[at].name != name
      invariant at < |sources| && forall i | 0 <= i < at :: sources[i].name != name
      decreases |sources| - at
    {
      at := at + 1;
    }
  }

  /** The names held, each with the mask of the sources that hold it. */
  ghost predicate Held(held: map<Text, nat>, entries: seq<Entry>, sources: seq<Source>) {
    forall i, name | 0 <= i < |sources| :: HoldsBit(held, name, i) <==> name in HeldBy(entries, sources[i].name)
  }

  predicate HoldsBit(held: map<Text, nat>, name: Text, i: nat) {
    name in held && Bit(held[name], i)
  }

  lemma HeldMore(entries: seq<Entry>, e: Entry, name: Text)
    ensures HeldBy(entries + [e], name) == HeldBy(entries, name) + if ClaimedBy(e.1, name) then {Normalise(e.0)} else {}
  {
    var all := entries + [e];
    forall n
      ensures n in HeldBy(all, name) <==> n in HeldBy(entries, name) || (ClaimedBy(e.1, name) && n == Normalise(e.0))
    {
      assert e in all;
      assert forall x <- entries :: x in all;
    }
  }

  method Gather(entries: seq<Entry>, sources: seq<Source>) returns (held: map<Text, nat>)
    requires Attributed(entries, sources)
    ensures Held(held, entries, sources)
  {
    held := map[];
    for k := 0 to |entries|
      invariant Held(held, entries[..k], sources)
    {
      assert entries[..k + 1] == entries[..k] + [entries[k]];
      assert entries[k] in entries;
      var mask := MaskOf(entries[k].1, sources);
      ghost var before := held;
      if mask != 0 {
        var name := Normalise(entries[k].0);
        held := held[name := Or(CountOf(held, name), mask)];
      }
      forall i, name | 0 <= i < |sources|
        ensures HoldsBit(held, name, i) <==> name in HeldBy(entries[..k + 1], sources[i].name)
      {
        HeldMore(entries[..k], entries[k], sources[i].name);
        assert HoldsBit(before, name, i) <==> name in HeldBy(entries[..k], sources[i].name);
        if mask == 0 { BitOfZero(i); }
        else if name == Normalise(entries[k].0) {
          BitOfOr(CountOf(before, name), mask, i);
          BitOfZero(i);
        }
      }
    }
    assert entries[..|entries|] == entries;
  }

  // -- counting once per mask ----------------------------------------------------------

  function Of(held: map<Text, nat>, mask: nat): set<Text> {
    set n | n in held && held[n] == mask
  }

  /** The names of these masks that both sources hold. */
  function Both(held: map<Text, nat>, i: nat, j: nat, masks: set<nat>): set<Text> {
    set n | n in held && held[n] in masks && Bit(held[n], i) && Bit(held[n], j)
  }

  lemma BothMore(held: map<Text, nat>, i: nat, j: nat, masks: set<nat>, m: nat)
    requires m !in masks
    ensures |Both(held, i, j, masks + {m})|
            == |Both(held, i, j, masks)| + if Bit(m, i) && Bit(m, j) then |Of(held, m)| else 0
  {
    if Bit(m, i) && Bit(m, j) {
      assert Both(held, i, j, masks + {m}) == Both(held, i, j, masks) + Of(held, m);
      assert Both(held, i, j, masks) !! Of(held, m);
    } else {
      assert Both(held, i, j, masks + {m}) == Both(held, i, j, masks);
    }
  }

  /** How many names have each mask. */
  method CountMasks(held: map<Text, nat>) returns (counts: map<nat, nat>)
    ensures forall m <- counts :: counts[m] == |Of(held, m)|
    ensures forall n <- held :: held[n] in counts
  {
    counts := map[];
    var rest := held.Keys;
    forall m: nat ensures Of(held, m) - rest == {} { }
    while rest != {}
      invariant rest <= held.Keys
      invariant forall m: nat :: CountOf(counts, m) == |Of(held, m) - rest|
      decreases |rest|
    {
      var n :| n in rest;
      ghost var before := counts;
      counts := counts[held[n] := CountOf(counts, held[n]) + 1];
      forall m: nat ensures CountOf(counts, m) == |Of(held, m) - (rest - {n})| {
        CountOne(held, rest, n, m);
        assert CountOf(before, m) == |Of(held, m) - rest|;
      }
      rest := rest - {n};
    }
    forall m: nat ensures CountOf(counts, m) == |Of(held, m)| { assert Of(held, m) - rest == Of(held, m); }
    forall m <- counts ensures counts[m] == |Of(held, m)| { assert CountOf(counts, m) == counts[m]; }
    forall n <- held ensures held[n] in counts {
      assert n in Of(held, held[n]);
      assert CountOf(counts, held[n]) == |Of(held, held[n])|;
    }
  }

  lemma CountOne(held: map<Text, nat>, left: set<Text>, n: Text, m: nat)
    requires n in left && left <= held.Keys
    ensures |Of(held, m) - (left - {n})| == |Of(held, m) - left| + if held[n] == m then 1 else 0
  {
    if held[n] == m {
      assert Of(held, m) - (left - {n}) == (Of(held, m) - left) + {n};
    } else {
      assert Of(held, m) - (left - {n}) == Of(held, m) - left;
    }
  }

  /** Adds one mask's names to the size of each of its sources. */
  method AddSizes(sizes0: map<Text, nat>, sources: seq<Source>, mask: nat, count: nat) returns (sizes: map<Text, nat>)
    requires OneNameEach(sources)
    ensures forall i | 0 <= i < |sources| ::
      CountOf(sizes, sources[i].name) == CountOf(sizes0, sources[i].name) + if Bit(mask, i) then count else 0
  {
    sizes := sizes0;
    for k := 0 to |sources|
      invariant forall i | 0 <= i < |sources| ::
        CountOf(sizes, sources[i].name) == CountOf(sizes0, sources[i].name) + if i < k && Bit(mask, i) then count else 0
    {
      if Bit(mask, k) { sizes := sizes[sources[k].name := CountOf(sizes, sources[k].name) + count]; }
    }
  }

  /** Adds one mask's names to the count of each pair of its sources. */
  method AddPairs(shared0: map<(Text, Text), nat>, sources: seq<Source>, mask: nat, count: nat)
    returns (shared: map<(Text, Text), nat>)
    requires OneNameEach(sources)
    ensures forall i, j | 0 <= i < j < |sources| ::
      CountOf(shared, (sources[i].name, sources[j].name))
      == CountOf(shared0, (sources[i].name, sources[j].name)) + if Bit(mask, i) && Bit(mask, j) then count else 0
  {
    shared := shared0;
    for a := 0 to |sources|
      invariant forall i, j | 0 <= i < j < |sources| ::
        CountOf(shared, (sources[i].name, sources[j].name))
        == CountOf(shared0, (sources[i].name, sources[j].name))
           + if i < a && Bit(mask, i) && Bit(mask, j) then count else 0
    {
      if Bit(mask, a) {
        for b := a + 1 to |sources|
          invariant forall i, j | 0 <= i < j < |sources| ::
            CountOf(shared, (sources[i].name, sources[j].name))
            == CountOf(shared0, (sources[i].name, sources[j].name))
               + if (i < a || (i == a && j < b)) && Bit(mask, i) && Bit(mask, j) then count else 0
        {
          var pair := (sources[a].name, sources[b].name);
          if Bit(mask, b) { shared := shared[pair := CountOf(shared, pair) + count]; }
        }
      }
    }
  }

  /** The counts are right as far as the names of these masks go. */
  ghost predicate Tallied(sizes: map<Text, nat>, shared: map<(Text, Text), nat>, held: map<Text, nat>,
                          sources: seq<Source>, masks: set<nat>)
  {
    && (forall i | 0 <= i < |sources| :: CountOf(sizes, sources[i].name) == |Both(held, i, i, masks)|)
    && forall i, j | 0 <= i < j < |sources| ::
         CountOf(shared, (sources[i].name, sources[j].name)) == |Both(held, i, j, masks)|
  }

  /** Counts the names of one mask, all at once. */
  method AddMask(sizes0: map<Text, nat>, shared0: map<(Text, Text), nat>, sources: seq<Source>, mask: nat, count: nat,
                 ghost held: map<Text, nat>, ghost masks: set<nat>)
    returns (sizes: map<Text, nat>, shared: map<(Text, Text), nat>)
    requires OneNameEach(sources)
    requires Tallied(sizes0, shared0, held, sources, masks) && mask !in masks && count == |Of(held, mask)|
    ensures Tallied(sizes, shared, held, sources, masks + {mask})
  {
    forall i: nat, j: nat
      ensures |Both(held, i, j, masks + {mask})|
              == |Both(held, i, j, masks)| + if Bit(mask, i) && Bit(mask, j) then count else 0
    {
      BothMore(held, i, j, masks, mask);
    }
    sizes := AddSizes(sizes0, sources, mask, count);
    shared := AddPairs(shared0, sources, mask, count);
  }

  method Tally(held: map<Text, nat>, sources: seq<Source>)
    returns (sizes: map<Text, nat>, shared: map<(Text, Text), nat>)
    requires OneNameEach(sources)
    ensures exists masks :: Tallied(sizes, shared, held, sources, masks) && forall n <- held :: held[n] in masks
  {
    var counts := CountMasks(held);
    sizes, shared := map[], map[];
    var rest := counts.Keys;
    ghost var masks := {};
    while rest != {}
      invariant rest <= counts.Keys && masks == counts.Keys - rest
      invariant Tallied(sizes, shared, held, sources, masks)
      decreases |rest|
    {
      var mask :| mask in rest;
      sizes, shared := AddMask(sizes, shared, sources, mask, counts[mask], held, masks);
      rest := rest - {mask};
      masks := masks + {mask};
    }
    assert masks == counts.Keys;
  }

  /** How many names each source that is not local holds, and how many each
      two of them both hold, counted once for each mask. */
  method Measure(entries: seq<Entry>, sourceList: seq<Source>)
    returns (sizes: map<Text, nat>, shared: map<(Text, Text), nat>)
    requires Attributed(entries, External(sourceList))
    ensures var sources := External(sourceList);
            && (forall i | 0 <= i < |sources| :: CountOf(sizes, sources[i].name) == |HeldBy(entries, sources[i].name)|)
            && (forall i, j | 0 <= i < j < |sources| ::
                  CountOf(shared, (sources[i].name, sources[j].name))
                  == |HeldBy(entries, sources[i].name) * HeldBy(entries, sources[j].name)|)
  {
    var sources := External(sourceList);
    var held := Gather(entries, sources);
    sizes, shared := Tally(held, sources);
    ghost var masks :| Tallied(sizes, shared, held, sources, masks) && forall n <- held :: held[n] in masks;
    forall i | 0 <= i < |sources| ensures CountOf(sizes, sources[i].name) == |HeldBy(entries, sources[i].name)| {
      AllMasks(held, entries, sources, masks, i, i);
      var own := HeldBy(entries, sources[i].name);
      assert own * own == own;
    }
    forall i, j | 0 <= i < j < |sources|
      ensures CountOf(shared, (sources[i].name, sources[j].name))
              == |HeldBy(entries, sources[i].name) * HeldBy(entries, sources[j].name)|
    {
      AllMasks(held, entries, sources, masks, i, j);
    }
  }

  /** Over all masks, the names with both bits are the names both sources hold. */
  lemma AllMasks(held: map<Text, nat>, entries: seq<Entry>, sources: seq<Source>, masks: set<nat>, i: nat, j: nat)
    requires Held(held, entries, sources) && i < |sources| && j < |sources| && (forall n <- held :: held[n] in masks)
    ensures Both(held, i, j, masks) == HeldBy(entries, sources[i].name) * HeldBy(entries, sources[j].name)
  {
    forall n
      ensures n in Both(held, i, j, masks)
              <==> n in HeldBy(entries, sources[i].name) && n in HeldBy(entries, sources[j].name)
    {
      assert HoldsBit(held, n, i) <==> n in HeldBy(entries, sources[i].name);
      assert HoldsBit(held, n, j) <==> n in HeldBy(entries, sources[j].name);
    }
  }

  // -- over a whole index ------------------------------------------------------------------

  lemma {:induction false} ExternalAre(sources: seq<Source>)
    requires OneNameEach(sources)
    ensures OneNameEach(External(sources))
    ensures forall s :: s in External(sources) <==> s in sources && !s.local
  {
    if sources != [] {
      var n := |sources| - 1;
      ExternalAre(sources[..n]);
      assert sources == sources[..n] + [sources[n]];
      forall s <- External(sources[..n]) ensures s.name != sources[n].name {
        var i :| 0 <= i < n && sources[i] == s;
        assert sources[i].name != sources[n].name;
      }
    }
  }

  lemma {:induction false} ExpandSources(im: Image, attr: Attr)
    requires AttrFits(attr, |im.cats|, |im.srcs|)
    ensures forall c <- Expand(im, attr) :: c.0 in im.srcs
  {
    if attr != [] { ExpandSources(im, attr[..|attr| - 1]); }
  }

  /** What an index lists of its own rows is attributed to its own sources. */
  lemma ListingAttributed(im: Image)
    requires Fits(im) && OneNameEach(im.srcs)
    ensures Attributed(Listing(im, |im.rows|), External(im.srcs))
  {
    ExternalAre(im.srcs);
    var entries, sources := Listing(im, |im.rows|), External(im.srcs);
    forall e <- entries, c <- e.1 ensures c.0.local || Among(sources, c.0.name) {
      var i :| 0 <= i < |entries| && entries[i] == e;
      ExpandSources(im, im.attrs[im.rows[i].attr]);
      if !c.0.local {
        assert c.0 in sources;
        var j :| 0 <= j < |sources| && sources[j] == c.0;
      }
    }
  }

  /** In a file the builder wrote, each source has a name of its own. */
  lemma BuiltNames(im: Image, entries: Builder.Entries, sources: map<Text, Source>)
    requires Builder.Describes(im, entries, sources)
    ensures OneNameEach(im.srcs)
  {
    var names := Builder.SourceNames(im.srcs);
    assert Distinct(names);
    forall i, j | 0 <= i < j < |im.srcs| ensures im.srcs[i].name != im.srcs[j].name { assert names[i] != names[j]; }
  }

  /** The report over an index that is open on a file, each of whose sources has a name of its own. */
  method MeasureIndex(index: DomainIndex, ghost im: Image)
    returns (sizes: map<Text, nat>, shared: map<(Text, Text), nat>)
    requires index.Valid() && Whole(index.State(), im) && OneNameEach(im.srcs)
    modifies index`attrMemo
    ensures index.Valid()
    ensures var entries, sources := Listing(im, |im.rows|), External(im.srcs);
            && (forall i | 0 <= i < |sources| :: CountOf(sizes, sources[i].name) == |HeldBy(entries, sources[i].name)|)
            && (forall i, j | 0 <= i < j < |sources| ::
                  CountOf(shared, (sources[i].name, sources[j].name))
                  == |HeldBy(entries, sources[i].name) * HeldBy(entries, sources[j].name)|)
  {
    var entries := index.Entries(im);
    ListingAttributed(im);
    sizes, shared := Measure(entries, index.tables.sources);
  }
}
