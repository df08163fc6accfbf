/** What the builder writes the reader reads: for every key exactly its claims. */
module RoundTrip {
  import opened Wrappers
  import opened Names
  import opened Layout
  import opened Builder
  import opened Fitting
  import opened Reading
  import opened Index

  /** The lists say this of the key: the source, as it is recorded, claims the category. */
  predicate Says(entries: Entries, sources: map<Text, Source>, key: Text, pair: (Source, Text)) {
    && key in entries && Pair(entries[key], sources, pair)
  }

  predicate Pair(claims: Claimed, sources: map<Text, Source>, pair: (Source, Text)) {
    && pair.0 == SourceOf(pair.0.name, sources)
    && pair.0.name in claims && pair.1 in claims[pair.0.name]
  }

  /** The pairs of one source's claim are its categories, each once. */
  lemma PairsMean(im: Image, c: Claim, names: seq<Text>, pair: (Source, Text))
    requires ClaimFits(c, |im.cats|, |im.srcs|) && Distinct(im.cats)
    requires forall k: nat :: k in c.cats <==> k < |im.cats| && im.cats[k] in names
    requires forall s <- names :: s in im.cats
    ensures pair in Pairs(im, c) <==> pair.0 == im.srcs[c.src] && pair.1 in names
  {
    var pairs := Pairs(im, c);
    if pair in pairs {
      var i :| 0 <= i < |pairs| && pairs[i] == pair;
      assert c.cats[i] in c.cats;
    }
    if pair.0 == im.srcs[c.src] && pair.1 in names {
      var k :| 0 <= k < |im.cats| && im.cats[k] == pair.1;
      assert k in c.cats;
      var i :| 0 <= i < |c.cats| && c.cats[i] == k;
      assert pairs[i] == pair;
    }
  }

  lemma PairsOnce(im: Image, c: Claim)
    requires ClaimFits(c, |im.cats|, |im.srcs|) && Distinct(im.cats) && Distinct(c.cats)
    ensures Distinct(Pairs(im, c))
  {
    var pairs := Pairs(im, c);
    forall i, j | 0 <= i < j < |pairs| ensures pairs[i] != pairs[j] {
      assert c.cats[i] in c.cats && c.cats[j] in c.cats;
      var a, b := c.cats[i], c.cats[j];
      assert a < |im.cats| && b < |im.cats| && a != b;
      if a < b { assert im.cats[a] != im.cats[b]; } else { assert im.cats[b] != im.cats[a]; }
    }
  }

  /** The image's tables are those of interned claims, each source as it is recorded. */
  predicate TablesOf(im: Image, sources: map<Text, Source>) {
    && im.srcs == SourcesOf(SourceNames(im.srcs), sources) && Distinct(im.cats) && Distinct(SourceNames(im.srcs))
    && |im.cats| < K16 && |im.srcs| < K16
  }

  lemma KeyFits(im: Image, claims: Claimed, n: nat)
    requires |im.cats| < K16 && |im.srcs| < K16 && n <= |im.srcs|
    ensures AttrFits(KeyOf(claims, im.cats, SourceNames(im.srcs), n), |im.cats|, |im.srcs|)
  {
    var attr := KeyOf(claims, im.cats, SourceNames(im.srcs), n);
    forall i | 0 <= i < |attr| ensures ClaimFits(attr[i], |im.cats|, |im.srcs|) {
      assert IdsFit(attr[i], |im.cats|, |im.srcs|);
    }
  }

  /** The pair is of one of the first n sources. */
  predicate Among(srcs: seq<Source>, n: nat, name: Text)
    requires n <= |srcs|
  {
    exists i | 0 <= i < n :: srcs[i].name == name
  }

  lemma AmongNext(im: Image, sources: map<Text, Source>, n: nat, name: Text)
    requires TablesOf(im, sources) && 0 < n <= |im.srcs|
    ensures Among(im.srcs, n, name) <==> Among(im.srcs, n - 1, name) || name == im.srcs[n - 1].name
    ensures !Among(im.srcs, n - 1, im.srcs[n - 1].name)
    ensures im.srcs[n - 1] == SourceOf(im.srcs[n - 1].name, sources)
  {
    if Among(im.srcs, n, name) {
      var i :| 0 <= i < n && im.srcs[i].name == name;
      if i < n - 1 { assert Among(im.srcs, n - 1, name); }
    }
    if Among(im.srcs, n - 1, name) {
      var i :| 0 <= i < n - 1 && im.srcs[i].name == name;
      assert im.srcs[i].name == name;
    }
    var names := SourceNames(im.srcs);
    forall i | 0 <= i < n - 1 ensures im.srcs[i].name != im.srcs[n - 1].name { assert names[i] != names[n - 1]; }
    assert SourcesOf(names, sources)[n - 1] == SourceOf(names[n - 1], sources);
  }

  /** Expanding a key's claim set gives the claims back. */
  lemma {:induction false} ExpandKey(im: Image, sources: map<Text, Source>, claims: Claimed, n: nat,
                                     pair: (Source, Text))
    requires TablesOf(im, sources) && Registered(claims, im.cats, SourceNames(im.srcs)) && n <= |im.srcs|
    ensures AttrFits(KeyOf(claims, im.cats, SourceNames(im.srcs), n), |im.cats|, |im.srcs|)
    ensures pair in Expand(im, KeyOf(claims, im.cats, SourceNames(im.srcs), n))
            <==> Pair(claims, sources, pair) && Among(im.srcs, n, pair.0.name)
  {
    KeyFits(im, claims, n);
    if n > 0 {
      ExpandKey(im, sources, claims, n - 1, pair);
      AmongNext(im, sources, n, pair.0.name);
      var s := SourceNames(im.srcs)[n - 1];
      if s in claims && claims[s] != [] { ExpandLast(im, claims, n, pair); }
    }
  }

  /** The last source's claim gives that source's categories. */
  lemma ExpandLast(im: Image, claims: Claimed, n: nat, pair: (Source, Text))
    requires |im.cats| < K16 && |im.srcs| < K16 && Distinct(im.cats) && 0 < n <= |im.srcs|
    requires Registered(claims, im.cats, SourceNames(im.srcs))
    requires var s := SourceNames(im.srcs)[n - 1]; s in claims && claims[s] != []
    ensures AttrFits(KeyOf(claims, im.cats, SourceNames(im.srcs), n), |im.cats|, |im.srcs|)
    ensures AttrFits(KeyOf(claims, im.cats, SourceNames(im.srcs), n - 1), |im.cats|, |im.srcs|)
    ensures pair in Expand(im, KeyOf(claims, im.cats, SourceNames(im.srcs), n))
            <==> pair in Expand(im, KeyOf(claims, im.cats, SourceNames(im.srcs), n - 1))
                 || (pair.0 == im.srcs[n - 1] && pair.1 in claims[im.srcs[n - 1].name])
  {
    var names := SourceNames(im.srcs);
    var s := names[n - 1];
    var rest, c := KeyOf(claims, im.cats, names, n - 1), Claim(n - 1, IdsOf(claims[s], im.cats, |im.cats|));
    KeyFits(im, claims, n);
    KeyFits(im, claims, n - 1);
    IdsMean(claims[s], im.cats, |im.cats|);
    PairsMean(im, c, claims[s], pair);
    ExpandMore(im, rest, c);
  }

  lemma ExpandMore(im: Image, rest: Attr, c: Claim)
    requires AttrFits(rest, |im.cats|, |im.srcs|) && ClaimFits(c, |im.cats|, |im.srcs|)
    ensures Expand(im, rest + [c]) == Expand(im, rest) + Pairs(im, c)
  {
    assert (rest + [c])[..|rest|] == rest;
  }

  /** No pair comes twice. */
  lemma {:induction false} ExpandOnce(im: Image, sources: map<Text, Source>, claims: Claimed, n: nat)
    requires TablesOf(im, sources) && Registered(claims, im.cats, SourceNames(im.srcs)) && n <= |im.srcs|
    ensures AttrFits(KeyOf(claims, im.cats, SourceNames(im.srcs), n), |im.cats|, |im.srcs|)
    ensures Distinct(Expand(im, KeyOf(claims, im.cats, SourceNames(im.srcs), n)))
  {
    KeyFits(im, claims, n);
    if n > 0 {
      ExpandOnce(im, sources, claims, n - 1);
      var s := SourceNames(im.srcs)[n - 1];
      if s in claims && claims[s] != [] {
        EarlierPairs(im, sources, claims, n);
        LastOnce(im, KeyOf(claims, im.cats, SourceNames(im.srcs), n - 1), claims[s], n);
      }
    }
  }

  /** Nor does one source's claim repeat a pair of those before it. */
  lemma LastOnce(im: Image, rest: Attr, names: seq<Text>, n: nat)
    requires AttrFits(rest, |im.cats|, |im.srcs|) && |im.cats| < K16 && 0 < n <= |im.srcs| && Distinct(im.cats)
    requires Distinct(Expand(im, rest)) && forall pair <- Expand(im, rest) :: pair.0 != im.srcs[n - 1]
    ensures var c := Claim(n - 1, IdsOf(names, im.cats, |im.cats|));
            ClaimFits(c, |im.cats|, |im.srcs|) && Distinct(Expand(im, rest + [c]))
  {
    IdsMean(names, im.cats, |im.cats|);
    OnceMore(im, rest, Claim(n - 1, IdsOf(names, im.cats, |im.cats|)));
  }

  lemma OnceMore(im: Image, rest: Attr, c: Claim)
    requires AttrFits(rest, |im.cats|, |im.srcs|) && ClaimFits(c, |im.cats|, |im.srcs|)
    requires Distinct(im.cats) && Distinct(c.cats) && Distinct(Expand(im, rest))
    requires forall pair <- Expand(im, rest) :: pair.0 != im.srcs[c.src]
    ensures Distinct(Expand(im, rest + [c]))
  {
    ExpandMore(im, rest, c);
    PairsOnce(im, c);
    DistinctBoth(Expand(im, rest), Pairs(im, c));
  }

  lemma EarlierPairs(im: Image, sources: map<Text, Source>, claims: Claimed, n: nat)
    requires TablesOf(im, sources) && Registered(claims, im.cats, SourceNames(im.srcs)) && 0 < n <= |im.srcs|
    ensures AttrFits(KeyOf(claims, im.cats, SourceNames(im.srcs), n - 1), |im.cats|, |im.srcs|)
    ensures forall pair <- Expand(im, KeyOf(claims, im.cats, SourceNames(im.srcs), n - 1)) :: pair.0 != im.srcs[n - 1]
  {
    KeyFits(im, claims, n - 1);
    AmongNext(im, sources, n, im.srcs[n - 1].name);
    var earlier := Expand(im, KeyOf(claims, im.cats, SourceNames(im.srcs), n - 1));
    forall pair <- earlier ensures pair.0 != im.srcs[n - 1] { ExpandKey(im, sources, claims, n - 1, pair); }
  }

  lemma DistinctBoth<T>(a: seq<T>, b: seq<T>)
    requires Distinct(a) && Distinct(b) && forall x <- a :: x !in b
    ensures Distinct(a + b)
  {
    forall i, j | 0 <= i < j < |a + b| ensures (a + b)[i] != (a + b)[j] {
      if i < |a| <= j {
        assert a[i] in a && b[j - |a|] in b;
      }
    }
  }

  lemma DescribedTables(im: Image, entries: Entries, sources: map<Text, Source>)
    requires Describes(im, entries, sources) && Fits(im)
    ensures TablesOf(im, sources)
  {
  }

  /** For every key, stored or not, the reader finds exactly what the lists said of it. */
  lemma ReadsBack(im: Image, entries: Entries, sources: map<Text, Source>, key: Text, pair: (Source, Text))
    requires Describes(im, entries, sources) && Fits(im)
    ensures pair in Lookup(im, key) <==> Says(entries, sources, key, pair)
  {
    var name := ReverseLabels(key);
    ReverseTwice(key);
    var found := Seek(im.rows, name);
    if found.Some? {
      var r := im.rows[found.value];
      assert r in im.rows;
      assert Tells(r, entries, im.attrs, im.cats, SourceNames(im.srcs));
      DescribedTables(im, entries, sources);
      ExpandKey(im, sources, entries[key], |im.srcs|, pair);
      if Pair(entries[key], sources, pair) { SourceAmong(im, entries[key], sources, pair); }
    } else if key in entries {
      NotClaimed(im, entries, key);
    }
  }

  /** And finds none of it twice. */
  lemma ReadsOnce(im: Image, entries: Entries, sources: map<Text, Source>, key: Text)
    requires Describes(im, entries, sources) && Fits(im)
    ensures Distinct(Lookup(im, key))
  {
    ReverseTwice(key);
    var found := Seek(im.rows, ReverseLabels(key));
    if found.Some? {
      assert im.rows[found.value] in im.rows;
      assert Tells(im.rows[found.value], entries, im.attrs, im.cats, SourceNames(im.srcs));
      DescribedTables(im, entries, sources);
      ExpandOnce(im, sources, entries[key], |im.srcs|);
    }
  }

  lemma SourceAmong(im: Image, claims: Claimed, sources: map<Text, Source>, pair: (Source, Text))
    requires Registered(claims, im.cats, SourceNames(im.srcs)) && Pair(claims, sources, pair)
    ensures Among(im.srcs, |im.srcs|, pair.0.name)
  {
    var names := SourceNames(im.srcs);
    assert pair.0.name in names;
    var i :| 0 <= i < |names| && names[i] == pair.0.name;
    assert im.srcs[i].name == pair.0.name;
  }

  lemma NotClaimed(im: Image, entries: Entries, key: Text)
    requires AllNamed(entries.Keys, entries, im.rows) && key in entries
    requires forall i | 0 <= i < |im.rows| :: im.rows[i].name != ReverseLabels(key)
    ensures forall s <- entries[key] :: entries[key][s] == []
  {
    assert key in entries.Keys && !Named(ReverseLabels(key), im.rows);
  }

  /** One entry of the listing is a key someone claims something of, with its claims. */
  predicate Lists(entry: (Text, Claims), im: Image, entries: Entries)
    requires Fits(im)
  {
    entry.0 in entries && ClaimsAny(entries[entry.0]) && entry.1 == Lookup(im, entry.0)
  }

  predicate Listed(key: Text, all: seq<(Text, Claims)>) {
    exists entry <- all :: entry.0 == key
  }

  /** What is listed of a row is its key with that key's claims. */
  lemma ListsOne(im: Image, entries: Entries, sources: map<Text, Source>, i: nat)
    requires Describes(im, entries, sources) && Fits(im) && i < |im.rows|
    ensures Lists(Listing(im, |im.rows|)[i], im, entries)
  {
    RowTells(im, entries, sources, i);
    ReverseTwice(im.rows[i].name);
    LookupRow(im, ReverseLabels(im.rows[i].name), i);
  }

  lemma RowTells(im: Image, entries: Entries, sources: map<Text, Source>, i: nat)
    requires Describes(im, entries, sources) && i < |im.rows|
    ensures var key := ReverseLabels(im.rows[i].name); key in entries && ClaimsAny(entries[key])
  {
    assert im.rows[i] in im.rows;
    assert Tells(im.rows[i], entries, im.attrs, im.cats, SourceNames(im.srcs));
  }

  lemma RowOf(rows: seq<Row>, name: Text) returns (i: nat)
    requires Named(name, rows)
    ensures i < |rows| && rows[i].name == name
  {
    var r :| r in rows && r.name == name;
    i :| i < |rows| && rows[i] == r;
  }

  lemma ListedRow(im: Image, key: Text, i: nat)
    requires Fits(im) && i < |im.rows| && im.rows[i].name == ReverseLabels(key)
    ensures Listed(key, Listing(im, |im.rows|))
  {
    ReverseTwice(key);
    var all := Listing(im, |im.rows|);
    assert all[i] in all;
  }

  /** Every key someone claims something of is listed. */
  lemma ListsKey(im: Image, entries: Entries, sources: map<Text, Source>, key: Text)
    requires Describes(im, entries, sources) && Fits(im) && key in entries && ClaimsAny(entries[key])
    ensures Listed(key, Listing(im, |im.rows|))
  {
    assert key in entries.Keys && Named(ReverseLabels(key), im.rows);
    var i := RowOf(im.rows, ReverseLabels(key));
    ListedRow(im, key, i);
  }

  /** No key is listed twice. */
  lemma ListsOnce(im: Image, i: nat, j: nat)
    requires Fits(im) && i < j < |im.rows|
    ensures Listing(im, |im.rows|)[i].0 != Listing(im, |im.rows|)[j].0
  {
    assert Before(im.rows, i, j);
    LessOneWay(im.rows[i].name, im.rows[j].name);
    ReverseTwice(im.rows[i].name);
    ReverseTwice(im.rows[j].name);
  }

  /** These are exactly the key's claims, each once. */
  ghost predicate Exactly(claims: Claims, entries: Entries, sources: map<Text, Source>, key: Text) {
    Distinct(claims) && forall pair :: pair in claims <==> Says(entries, sources, key, pair)
  }

  lemma LookupExactly(im: Image, entries: Entries, sources: map<Text, Source>, key: Text)
    requires Describes(im, entries, sources) && Fits(im)
    ensures Exactly(Lookup(im, key), entries, sources, key)
  {
    var claims := Lookup(im, key);
    forall pair ensures pair in claims <==> Says(entries, sources, key, pair) {
      ReadsBack(im, entries, sources, key, pair);
    }
    ReadsOnce(im, entries, sources, key);
  }

  /** A file is built of the entries exactly when they fit. */
  method Build(entries: Entries, sources: map<Text, Source>, builtAt: nat)
    returns (r: Result<seq<Byte>, BuildError>, ghost im: Image)
    ensures r.Ok? <==> Fit(entries, sources, builtAt)
    ensures r.Ok? ==> Describes(im, entries, sources) && im.builtAt == builtAt && Fits(im) && Known(im.srcs)
    ensures r.Ok? ==> r.value == Encode(im)
  {
    r, im := BuildImage(entries, sources, builtAt);
    WritableIffFit(im, entries, sources);
  }

  /** Opening a built file and asking it for a key. */
  method OpenAsk(file: seq<Byte>, key: Text, ghost im: Image) returns (claims: Claims)
    requires Fits(im) && Known(im.srcs) && file == Encode(im)
    ensures claims == Lookup(im, key)
  {
    var index := new DomainIndex();
    WholeIsOurs(im);
    var outcome := index.Open(Disk(0, file), im);
    OwnTables(im);
    ClaimsForBack(index.State(), im, key);
    var found := index.ClaimsFor(key);
    claims := found.value;
  }

  /** Building a file, opening it and asking for any key, all in one. */
  method BuildOpenAsk(entries: Entries, sources: map<Text, Source>, builtAt: nat, key: Text)
    returns (r: Result<Claims, BuildError>)
    ensures r.Ok? <==> Fit(entries, sources, builtAt)
    ensures r.Ok? ==> Exactly(r.value, entries, sources, key)
  {
    var built, im := Build(entries, sources, builtAt);
    if built.Err? { return Err(built.error); }
    var claims := OpenAsk(built.value, key, im);
    LookupExactly(im, entries, sources, key);
    r := Ok(claims);
  }
}
