/** Whether a file can be built of the entries: what has to fit, counted on them. */
module Fitting {
  import opened Wrappers
  import opened Names
  import opened Layout
  import opened Builder

  // -- counting -------------------------------------------------------------------

  ghost function Total<T>(s: set<T>, size: T -> nat): nat {
    if s == {} then 0
    else
      var x :| x in s;
      size(x) + Total(s - {x}, size)
  }

  lemma {:induction false} TotalRemove<T>(s: set<T>, x: T, size: T -> nat)
    requires x in s
    ensures Total(s, size) == size(x) + Total(s - {x}, size)
    decreases |s|
  {
    var first :| first in s && Total(s, size) == size(first) + Total(s - {first}, size);
    if first != x {
      TotalRemove(s - {first}, x, size);
      TotalRemove(s - {x}, first, size);
      assert s - {first} - {x} == s - {x} - {first};
    }
  }

  function SumOf<T>(xs: seq<T>, size: T -> nat): nat {
    if xs == [] then 0 else SumOf(xs[..|xs| - 1], size) + size(xs[|xs| - 1])
  }

  /** Listed without repeats, a set is counted and summed along the list. */
  lemma {:induction false} TotalOf<T>(xs: seq<T>, size: T -> nat)
    requires Distinct(xs)
    ensures Total(Elements(xs), size) == SumOf(xs, size) && |Elements(xs)| == |xs|
  {
    if xs != [] {
      var n := |xs| - 1;
      TotalOf(xs[..n], size);
      assert xs == xs[..n] + [xs[n]];
      assert Elements(xs) - {xs[n]} == Elements(xs[..n]) by {
        assert forall x :: x in xs <==> x in xs[..n] || x == xs[n];
        assert xs[n] !in xs[..n];
      }
      TotalRemove(Elements(xs), xs[n], size);
    }
  }

  /** Parts written one after another are as long as their sizes add up to. */
  lemma {:induction false} PartsLength<T>(xs: seq<T>, parts: seq<seq<Byte>>, size: T -> nat)
    requires |xs| == |parts| && forall i | 0 <= i < |xs| :: |parts[i]| == size(xs[i])
    ensures |Concat(parts)| == SumOf(xs, size)
  {
    if xs != [] { PartsLength(xs[..|xs| - 1], parts[..|xs| - 1], size); }
  }

  // -- what the entries need --------------------------------------------------------

  /** The categories each source claims of a key, sources that claim none left out. */
  type Content = map<Text, set<Text>>

  ghost function ContentOf(claims: Claimed): Content {
    map s | s in claims && claims[s] != [] :: set c | c in claims[s]
  }

  /** The keys someone claims something of. */
  ghost function Keys(entries: Entries): set<Text> {
    set key | key in entries && ClaimsAny(entries[key])
  }

  ghost function Contents(entries: Entries): set<Content> {
    set key | key in Keys(entries) :: ContentOf(entries[key])
  }

  ghost function Categories(entries: Entries): set<Text> {
    set key, s, c | key in entries && s in entries[key] && c in entries[key][s] :: c
  }

  ghost function Sources(entries: Entries): set<Text> {
    set key, s | key in entries && s in entries[key] && entries[key][s] != [] :: s
  }

  /** What one source's claim takes in a claim set: its id, a count, and an id for each category. */
  ghost function ClaimSize(content: Content): Text -> nat {
    s => if s in content then 4 + 2 * |content[s]| else 0
  }

  ghost function SetSize(): Content -> nat {
    (content: Content) => 2 + Total(content.Keys, ClaimSize(content))
  }

  ghost predicate CategoriesFit(entries: Entries) {
    forall c <- Categories(entries) :: StringFits(c)
  }

  predicate SourceWritable(s: Source) {
    SourceFits(s) && s.trust < |TRUST_LEVELS|
  }

  ghost predicate SourcesFit(entries: Entries, sources: map<Text, Source>) {
    forall s <- Sources(entries) :: SourceWritable(SourceOf(s, sources))
  }

  /** How many keys, claim sets, categories and sources there are, how many
      bytes the claim sets and the names take, and whether each name and each
      source fits by itself. */
  datatype Needs = Needs(keys: nat, sets: nat, categories: nat, sources: nat, setBytes: nat, nameBytes: nat,
                         stringsFit: bool, recordsFit: bool)

  predicate Enough(n: Needs, builtAt: nat) {
    && builtAt < K64 && n.keys < K32 && n.sets < K32 && n.categories < K16 && n.sources < K16
    && n.stringsFit && n.recordsFit && n.setBytes < K32 && n.nameBytes < K32
  }

  ghost function NeedsOf(entries: Entries, sources: map<Text, Source>): Needs {
    Needs(|Keys(entries)|, |Contents(entries)|, |Categories(entries)|, |Sources(entries)|,
          Total(Contents(entries), SetSize()), Total(Keys(entries), NameSize()),
          CategoriesFit(entries), SourcesFit(entries, sources))
  }

  /** All of it to be counted before building. */
  ghost predicate Fit(entries: Entries, sources: map<Text, Source>, builtAt: nat) {
    Enough(NeedsOf(entries, sources), builtAt)
  }

  // -- the tables of an image that tells them ------------------------------------------

  lemma KeyTold(entries: Entries, rows: seq<Row>, key: Text) returns (i: nat)
    requires AllNamed(entries.Keys, entries, rows) && key in Keys(entries)
    ensures i < |rows| && rows[i].name == ReverseLabels(key) && ReverseLabels(rows[i].name) == key
  {
    assert key in entries.Keys && Named(ReverseLabels(key), rows);
    var r :| r in rows && r.name == ReverseLabels(key);
    i :| i < |rows| && rows[i] == r;
    ReverseTwice(key);
  }

  lemma RowTold(entries: Entries, rows: seq<Row>, attrs: seq<Attr>, cats: seq<Text>, srcs: seq<Text>, i: nat)
    requires AllTell(rows, entries, entries.Keys, attrs, cats, srcs) && i < |rows|
    ensures var key := ReverseLabels(rows[i].name);
            && key in Keys(entries) && rows[i].attr < |attrs| && SetOfKey(entries, attrs[rows[i].attr], cats, srcs, key)
            && ReverseLabels(key) == rows[i].name
  {
    assert rows[i] in rows;
    assert Tells(rows[i], entries, attrs, cats, srcs);
    ReverseTwice(rows[i].name);
  }

  /** A key's names are in the tables. */
  lemma NamesThere(im: Image, entries: Entries, sources: map<Text, Source>, key: Text)
    requires Describes(im, entries, sources) && key in Keys(entries)
    ensures Registered(entries[key], im.cats, SourceNames(im.srcs))
  {
    var i := KeyTold(entries, im.rows, key);
    RowTold(entries, im.rows, im.attrs, im.cats, SourceNames(im.srcs), i);
  }

  lemma CategoriesAre(im: Image, entries: Entries, sources: map<Text, Source>)
    requires Describes(im, entries, sources)
    ensures Elements(im.cats) == Categories(entries)
  {
    forall c | c in Categories(entries) ensures c in im.cats {
      var key, s :| key in entries && s in entries[key] && c in entries[key][s];
      NamesThere(im, entries, sources, key);
    }
    forall c | c in im.cats ensures c in Categories(entries) {
      assert SaysCategory(entries, entries.Keys, c);
    }
  }

  lemma SourcesAre(im: Image, entries: Entries, sources: map<Text, Source>)
    requires Describes(im, entries, sources)
    ensures Elements(SourceNames(im.srcs)) == Sources(entries)
  {
    forall s | s in Sources(entries) ensures s in SourceNames(im.srcs) {
      var key :| key in entries && s in entries[key] && entries[key][s] != [];
      NamesThere(im, entries, sources, key);
    }
    forall s | s in SourceNames(im.srcs) ensures s in Sources(entries) {
      assert Speaks(entries, entries.Keys, s);
    }
  }

  /** The keys in the order of their rows. */
  function KeysOf(rows: seq<Row>): (keys: seq<Text>)
    ensures |keys| == |rows|
  {
    seq(|rows|, i requires 0 <= i < |rows| => ReverseLabels(rows[i].name))
  }

  lemma KeysAre(entries: Entries, rows: seq<Row>, attrs: seq<Attr>, cats: seq<Text>, srcs: seq<Text>)
    requires AllNamed(entries.Keys, entries, rows) && AllTell(rows, entries, entries.Keys, attrs, cats, srcs)
    ensures Elements(KeysOf(rows)) == Keys(entries)
  {
    var keys := KeysOf(rows);
    forall key | key in Keys(entries) ensures key in keys {
      var i := KeyTold(entries, rows, key);
      assert keys[i] == key;
    }
    forall key | key in keys ensures key in Keys(entries) {
      var i :| 0 <= i < |keys| && keys[i] == key;
      RowTold(entries, rows, attrs, cats, srcs, i);
    }
  }

  lemma KeysOnce(rows: seq<Row>)
    requires OwnNames(rows)
    ensures Distinct(KeysOf(rows))
  {
    var keys := KeysOf(rows);
    forall i, j | 0 <= i < j < |keys| ensures keys[i] != keys[j] {
      ReverseTwice(rows[i].name);
      ReverseTwice(rows[j].name);
      assert rows[i].name != rows[j].name;
    }
  }

  ghost function NameSize(): Text -> nat {
    key => |ReverseLabels(key)|
  }

  lemma NamesSum(entries: Entries, rows: seq<Row>, attrs: seq<Attr>, cats: seq<Text>, srcs: seq<Text>)
    requires AllNamed(entries.Keys, entries, rows) && AllTell(rows, entries, entries.Keys, attrs, cats, srcs)
    requires OwnNames(rows)
    ensures |Concat(RowNames(rows))| == Total(Keys(entries), NameSize()) && |rows| == |Keys(entries)|
  {
    var keys := KeysOf(rows);
    KeysAre(entries, rows, attrs, cats, srcs);
    KeysOnce(rows);
    TotalOf(keys, NameSize());
    forall i | 0 <= i < |keys| ensures |RowNames(rows)[i]| == NameSize()(keys[i]) {
      RowTold(entries, rows, attrs, cats, srcs, i);
    }
    PartsLength(keys, RowNames(rows), NameSize());
  }

  lemma NamesLength(im: Image, entries: Entries, sources: map<Text, Source>)
    requires Describes(im, entries, sources)
    ensures |Concat(RowNames(im.rows))| == Total(Keys(entries), NameSize()) && |im.rows| == |Keys(entries)|
  {
    NamesSum(entries, im.rows, im.attrs, im.cats, SourceNames(im.srcs));
  }

  // -- its claim sets ------------------------------------------------------------------

  lemma SameLast(a: Claimed, b: Claimed, cats: seq<Text>, srcs: seq<Text>, n: nat)
    requires 0 < n <= |srcs| && KeyOf(a, cats, srcs, n) == KeyOf(b, cats, srcs, n)
    ensures KeyOf(a, cats, srcs, n - 1) == KeyOf(b, cats, srcs, n - 1)
    ensures srcs[n - 1] in ContentOf(a) <==> srcs[n - 1] in ContentOf(b)
    ensures srcs[n - 1] in ContentOf(a) ==> IdsOf(a[srcs[n - 1]], cats, |cats|) == IdsOf(b[srcs[n - 1]], cats, |cats|)
  {
    var attr, x, y := KeyOf(a, cats, srcs, n), KeyOf(a, cats, srcs, n - 1), KeyOf(b, cats, srcs, n - 1);
    KeysBelow(a, cats, srcs, n - 1);
    KeysBelow(b, cats, srcs, n - 1);
    LastClaim(a, cats, srcs, n);
    LastClaim(b, cats, srcs, n);
    assert srcs[n - 1] in ContentOf(a) ==> attr[..|attr| - 1] == x && attr[|attr| - 1] in attr;
    assert srcs[n - 1] in ContentOf(b) ==> attr[..|attr| - 1] == y && attr[|attr| - 1] in attr;
  }

  /** Two keys with one claim set say the same: of each source, so many. */
  lemma {:induction false} SameKeySays(a: Claimed, b: Claimed, cats: seq<Text>, srcs: seq<Text>, n: nat)
    requires n <= |srcs| && KeyOf(a, cats, srcs, n) == KeyOf(b, cats, srcs, n)
    ensures forall i | 0 <= i < n :: srcs[i] in ContentOf(a) <==> srcs[i] in ContentOf(b)
    ensures forall i, c | 0 <= i < n && srcs[i] in ContentOf(a) && srcs[i] in ContentOf(b) && c in cats ::
              c in a[srcs[i]] <==> c in b[srcs[i]]
  {
    if n > 0 {
      var s := srcs[n - 1];
      SameLast(a, b, cats, srcs, n);
      SameKeySays(a, b, cats, srcs, n - 1);
      if s in ContentOf(a) { SameIds(a[s], b[s], cats); }
    }
  }

  lemma SameIds(a: seq<Text>, b: seq<Text>, cats: seq<Text>)
    requires IdsOf(a, cats, |cats|) == IdsOf(b, cats, |cats|)
    ensures forall c <- cats :: c in a <==> c in b
  {
    IdsMean(a, cats, |cats|);
    IdsMean(b, cats, |cats|);
    forall c <- cats ensures c in a <==> c in b {
      var k :| 0 <= k < |cats| && cats[k] == c;
      assert k in IdsOf(a, cats, |cats|) <==> k in IdsOf(b, cats, |cats|);
    }
  }

  /** The first n sources' claims have ids below n. */
  lemma KeysBelow(claims: Claimed, cats: seq<Text>, srcs: seq<Text>, n: nat)
    requires n <= |srcs|
    ensures forall c <- KeyOf(claims, cats, srcs, n) :: c.src < n
  {
    if n > 0 { KeysBelow(claims, cats, srcs, n - 1); }
  }

  /** The last source's claim, if it makes one. */
  lemma LastClaim(claims: Claimed, cats: seq<Text>, srcs: seq<Text>, n: nat)
    requires 0 < n <= |srcs|
    ensures var s, attr, rest := srcs[n - 1], KeyOf(claims, cats, srcs, n), KeyOf(claims, cats, srcs, n - 1);
            if s in ContentOf(claims)
            then attr == rest + [Claim(n - 1, IdsOf(claims[s], cats, |cats|))] && attr[|attr| - 1].src == n - 1
            else attr == rest
  {
  }

  lemma {:induction false} IdsSame(x: seq<Text>, y: seq<Text>, cats: seq<Text>, n: nat)
    requires n <= |cats| && forall c :: c in x <==> c in y
    ensures IdsOf(x, cats, n) == IdsOf(y, cats, n)
  {
    if n > 0 { IdsSame(x, y, cats, n - 1); }
  }

  lemma {:induction false} SameContentKey(a: Claimed, b: Claimed, cats: seq<Text>, srcs: seq<Text>, n: nat)
    requires n <= |srcs| && ContentOf(a) == ContentOf(b)
    ensures KeyOf(a, cats, srcs, n) == KeyOf(b, cats, srcs, n)
  {
    if n > 0 {
      var s := srcs[n - 1];
      SameContentKey(a, b, cats, srcs, n - 1);
      assert s in ContentOf(a) <==> s in ContentOf(b);
      if s in ContentOf(a) {
        assert ContentOf(a)[s] == ContentOf(b)[s];
        forall c ensures c in a[s] <==> c in b[s] { assert c in ContentOf(a)[s] <==> c in ContentOf(b)[s]; }
        IdsSame(a[s], b[s], cats, |cats|);
      }
    }
  }

  /** Two keys have one claim set exactly when the same is said of both. */
  lemma OneSet(a: Claimed, b: Claimed, cats: seq<Text>, srcs: seq<Text>)
    requires Registered(a, cats, srcs) && Registered(b, cats, srcs)
    ensures Key(a, cats, srcs) == Key(b, cats, srcs) <==> ContentOf(a) == ContentOf(b)
  {
    if ContentOf(a) == ContentOf(b) { SameContentKey(a, b, cats, srcs, |srcs|); }
    if Key(a, cats, srcs) == Key(b, cats, srcs) {
      SameKeySays(a, b, cats, srcs, |srcs|);
      forall s ensures s in ContentOf(a) <==> s in ContentOf(b) {
        if s in srcs { var i :| 0 <= i < |srcs| && srcs[i] == s; }
      }
      forall s | s in ContentOf(a) ensures ContentOf(a)[s] == ContentOf(b)[s] {
        var i :| 0 <= i < |srcs| && srcs[i] == s;
        forall c ensures c in ContentOf(a)[s] <==> c in ContentOf(b)[s] { }
      }
    }
  }

  // -- how long they are ----------------------------------------------------------------

  lemma {:induction false} IdsCount(names: seq<Text>, cats: seq<Text>, n: nat)
    requires Distinct(cats) && n <= |cats|
    ensures |IdsOf(names, cats, n)| == |set c | c in names && c in cats[..n]|
  {
    if n > 0 {
      IdsCount(names, cats, n - 1);
      OneMoreOf(names, cats[..n - 1], cats[n - 1]);
      assert cats[..n] == cats[..n - 1] + [cats[n - 1]];
    } else {
      assert (set c | c in names && c in cats[..0]) == {};
    }
  }

  lemma OneMoreOf(names: seq<Text>, some: seq<Text>, name: Text)
    requires name !in some
    ensures |set c | c in names && c in some + [name]|
            == |set c | c in names && c in some| + if name in names then 1 else 0
  {
    var before, after := set c | c in names && c in some, set c | c in names && c in some + [name];
    assert name !in before;
    assert after == if name in names then before + {name} else before;
  }

  /** The first n sources that claim anything, by id. */
  function Claimants(claims: Claimed, srcs: seq<Text>, n: nat): seq<Text>
    requires n <= |srcs|
  {
    if n == 0 then []
    else Claimants(claims, srcs, n - 1)
         + if srcs[n - 1] in claims && claims[srcs[n - 1]] != [] then [srcs[n - 1]] else []
  }

  lemma {:induction false} ClaimantsAre(claims: Claimed, srcs: seq<Text>, n: nat)
    requires Distinct(srcs) && n <= |srcs|
    ensures Distinct(Claimants(claims, srcs, n))
    ensures forall s :: s in Claimants(claims, srcs, n) <==> s in srcs[..n] && s in claims && claims[s] != []
  {
    if n > 0 {
      ClaimantsAre(claims, srcs, n - 1);
      assert srcs[..n] == srcs[..n - 1] + [srcs[n - 1]];
      assert srcs[n - 1] !in srcs[..n - 1];
    }
  }

  lemma ClaimLength(c: Claim)
    ensures |ClaimBytes(c)| == 4 + 2 * |c.cats|
  {
    OffsetEven(Shorts(c.cats), 2, |c.cats|);
    OffsetAll(Shorts(c.cats));
  }

  /** One source's claim is as long as the categories it claims make it. */
  lemma OneLength(claims: Claimed, cats: seq<Text>, srcs: seq<Text>, s: Text, n: nat)
    requires Distinct(cats) && Registered(claims, cats, srcs) && s in ContentOf(claims)
    ensures |ClaimBytes(Claim(n, IdsOf(claims[s], cats, |cats|)))| == ClaimSize(ContentOf(claims))(s)
  {
    ClaimLength(Claim(n, IdsOf(claims[s], cats, |cats|)));
    IdsCount(claims[s], cats, |cats|);
    assert cats[..|cats|] == cats;
    assert (set c | c in claims[s] && c in cats) == ContentOf(claims)[s];
  }

  lemma {:induction false} ClaimsLength(claims: Claimed, cats: seq<Text>, srcs: seq<Text>, n: nat)
    requires Distinct(cats) && Registered(claims, cats, srcs) && n <= |srcs|
    ensures |Concat(ClaimParts(KeyOf(claims, cats, srcs, n)))|
            == SumOf(Claimants(claims, srcs, n), ClaimSize(ContentOf(claims)))
  {
    if n > 0 {
      var s := srcs[n - 1];
      ClaimsLength(claims, cats, srcs, n - 1);
      LastClaim(claims, cats, srcs, n);
      if s in ContentOf(claims) {
        OneLength(claims, cats, srcs, s, n - 1);
        PartMore(KeyOf(claims, cats, srcs, n - 1), Claim(n - 1, IdsOf(claims[s], cats, |cats|)));
        SumMore(Claimants(claims, srcs, n - 1), s, ClaimSize(ContentOf(claims)));
      } else {
        assert Claimants(claims, srcs, n) == Claimants(claims, srcs, n - 1);
      }
    }
  }

  lemma PartMore(attr: Attr, c: Claim)
    ensures |Concat(ClaimParts(attr + [c]))| == |Concat(ClaimParts(attr))| + |ClaimBytes(c)|
  {
    var parts := ClaimParts(attr + [c]);
    assert parts[..|attr|] == ClaimParts(attr);
  }

  lemma SumMore<T>(xs: seq<T>, x: T, size: T -> nat)
    ensures SumOf(xs + [x], size) == SumOf(xs, size) + size(x)
  {
    assert (xs + [x])[..|xs|] == xs;
  }

  /** A claim set is as long as what is said in it makes it. */
  lemma SetLength(claims: Claimed, cats: seq<Text>, srcs: seq<Text>)
    requires Distinct(cats) && Distinct(srcs) && Registered(claims, cats, srcs)
    ensures |AttrBytes(Key(claims, cats, srcs))| == SetSize()(ContentOf(claims))
  {
    var claimants := Claimants(claims, srcs, |srcs|);
    ClaimsLength(claims, cats, srcs, |srcs|);
    ClaimantsAre(claims, srcs, |srcs|);
    TotalOf(claimants, ClaimSize(ContentOf(claims)));
    assert srcs[..|srcs|] == srcs;
    assert Elements(claimants) == ContentOf(claims).Keys;
  }

  // -- and how many ------------------------------------------------------------------------

  /** The claim set is the one of this key. */
  ghost predicate SetOfKey(entries: Entries, attr: Attr, cats: seq<Text>, srcs: seq<Text>, key: Text) {
    key in Keys(entries) && Registered(entries[key], cats, srcs) && attr == Key(entries[key], cats, srcs)
  }

  ghost predicate HasKey(entries: Entries, attr: Attr, cats: seq<Text>, srcs: seq<Text>) {
    exists key :: SetOfKey(entries, attr, cats, srcs, key)
  }

  /** What a claim set says. */
  ghost function SaidIn(entries: Entries, attr: Attr, cats: seq<Text>, srcs: seq<Text>): (content: Content)
    requires HasKey(entries, attr, cats, srcs)
    ensures exists key :: SetOfKey(entries, attr, cats, srcs, key) && content == ContentOf(entries[key])
  {
    var key :| SetOfKey(entries, attr, cats, srcs, key);
    ContentOf(entries[key])
  }

  lemma SaidBy(entries: Entries, attr: Attr, cats: seq<Text>, srcs: seq<Text>, key: Text)
    requires SetOfKey(entries, attr, cats, srcs, key)
    ensures SaidIn(entries, attr, cats, srcs) == ContentOf(entries[key])
  {
    var k :| SetOfKey(entries, attr, cats, srcs, k) && SaidIn(entries, attr, cats, srcs) == ContentOf(entries[k]);
    assert SetOfKey(entries, attr, cats, srcs, k);
    OneSet(entries[k], entries[key], cats, srcs);
  }

  lemma SaidTwice(entries: Entries, a: Attr, b: Attr, cats: seq<Text>, srcs: seq<Text>)
    requires HasKey(entries, a, cats, srcs) && HasKey(entries, b, cats, srcs)
    requires SaidIn(entries, a, cats, srcs) == SaidIn(entries, b, cats, srcs)
    ensures a == b
  {
    var k :| SetOfKey(entries, a, cats, srcs, k);
    var l :| SetOfKey(entries, b, cats, srcs, l);
    SaidBy(entries, a, cats, srcs, k);
    SaidBy(entries, b, cats, srcs, l);
    OneSet(entries[k], entries[l], cats, srcs);
  }

  lemma SaidLength(entries: Entries, attr: Attr, cats: seq<Text>, srcs: seq<Text>)
    requires HasKey(entries, attr, cats, srcs) && Distinct(cats) && Distinct(srcs)
    ensures |AttrBytes(attr)| == SetSize()(SaidIn(entries, attr, cats, srcs))
    ensures SaidIn(entries, attr, cats, srcs) in Contents(entries)
  {
    var k :| SetOfKey(entries, attr, cats, srcs, k);
    SaidBy(entries, attr, cats, srcs, k);
    SetLength(entries[k], cats, srcs);
  }

  /** What each claim set says, in their order. */
  ghost function SaidInAll(entries: Entries, attrs: seq<Attr>, cats: seq<Text>,
                           srcs: seq<Text>): (contents: seq<Content>)
    requires forall a | 0 <= a < |attrs| :: HasKey(entries, attrs[a], cats, srcs)
    ensures |contents| == |attrs|
  {
    seq(|attrs|, a requires 0 <= a < |attrs| => SaidIn(entries, attrs[a], cats, srcs))
  }

  lemma SaidOnce(entries: Entries, attrs: seq<Attr>, cats: seq<Text>, srcs: seq<Text>)
    requires Distinct(attrs) && forall a | 0 <= a < |attrs| :: HasKey(entries, attrs[a], cats, srcs)
    ensures Distinct(SaidInAll(entries, attrs, cats, srcs))
  {
    var contents := SaidInAll(entries, attrs, cats, srcs);
    forall a, b | 0 <= a < b < |contents| ensures contents[a] != contents[b] {
      if contents[a] == contents[b] { SaidTwice(entries, attrs[a], attrs[b], cats, srcs); }
    }
  }

  lemma SaidAll(entries: Entries, attrs: seq<Attr>, cats: seq<Text>, srcs: seq<Text>)
    requires forall a | 0 <= a < |attrs| :: HasKey(entries, attrs[a], cats, srcs)
    requires forall key <- Keys(entries) :: exists a :: 0 <= a < |attrs| && SetOfKey(entries, attrs[a], cats, srcs, key)
    requires Distinct(cats) && Distinct(srcs)
    ensures Elements(SaidInAll(entries, attrs, cats, srcs)) == Contents(entries)
  {
    var contents := SaidInAll(entries, attrs, cats, srcs);
    forall content | content in Contents(entries) ensures content in contents {
      var key :| key in Keys(entries) && ContentOf(entries[key]) == content;
      var a :| 0 <= a < |attrs| && SetOfKey(entries, attrs[a], cats, srcs, key);
      SaidBy(entries, attrs[a], cats, srcs, key);
      assert contents[a] == content;
    }
    forall content | content in contents ensures content in Contents(entries) {
      var a :| 0 <= a < |contents| && contents[a] == content;
      SaidLength(entries, attrs[a], cats, srcs);
    }
  }

  lemma SaidLengths(entries: Entries, attrs: seq<Attr>, cats: seq<Text>, srcs: seq<Text>)
    requires Distinct(cats) && Distinct(srcs) && forall a | 0 <= a < |attrs| :: HasKey(entries, attrs[a], cats, srcs)
    ensures |Concat(AttrParts(attrs))| == SumOf(SaidInAll(entries, attrs, cats, srcs), SetSize())
  {
    var contents, parts := SaidInAll(entries, attrs, cats, srcs), AttrParts(attrs);
    forall a | 0 <= a < |contents| ensures |parts[a]| == SetSize()(contents[a]) {
      SaidLength(entries, attrs[a], cats, srcs);
    }
    PartsLength(contents, parts, SetSize());
  }

  lemma SaidSum(entries: Entries, attrs: seq<Attr>, cats: seq<Text>, srcs: seq<Text>)
    requires Distinct(attrs) && forall a | 0 <= a < |attrs| :: HasKey(entries, attrs[a], cats, srcs)
    requires forall key <- Keys(entries) :: exists a :: 0 <= a < |attrs| && SetOfKey(entries, attrs[a], cats, srcs, key)
    requires Distinct(cats) && Distinct(srcs)
    ensures |Concat(AttrParts(attrs))| == Total(Contents(entries), SetSize()) && |attrs| == |Contents(entries)|
  {
    var contents := SaidInAll(entries, attrs, cats, srcs);
    SaidOnce(entries, attrs, cats, srcs);
    SaidAll(entries, attrs, cats, srcs);
    TotalOf(contents, SetSize());
    SaidLengths(entries, attrs, cats, srcs);
  }

  lemma AttrTold(rows: seq<Row>, entries: Entries, attrs: seq<Attr>, cats: seq<Text>, srcs: seq<Text>, a: nat)
    requires AllTell(rows, entries, entries.Keys, attrs, cats, srcs) && a < |attrs| && Used(a, rows)
    ensures HasKey(entries, attrs[a], cats, srcs)
  {
    var r :| r in rows && r.attr == a;
    var i :| 0 <= i < |rows| && rows[i] == r;
    RowTold(entries, rows, attrs, cats, srcs, i);
  }

  lemma SetsLength(im: Image, entries: Entries, sources: map<Text, Source>)
    requires Describes(im, entries, sources)
    ensures |Concat(AttrParts(im.attrs))| == Total(Contents(entries), SetSize()) && |im.attrs| == |Contents(entries)|
  {
    var names := SourceNames(im.srcs);
    forall a | 0 <= a < |im.attrs| ensures HasKey(entries, im.attrs[a], im.cats, names) {
      assert Used(a, im.rows);
      AttrTold(im.rows, entries, im.attrs, im.cats, names, a);
    }
    forall key <- Keys(entries)
      ensures exists a :: 0 <= a < |im.attrs| && SetOfKey(entries, im.attrs[a], im.cats, names, key)
    {
      var i := KeyTold(entries, im.rows, key);
      RowTold(entries, im.rows, im.attrs, im.cats, names, i);
    }
    SaidSum(entries, im.attrs, im.cats, names);
  }

  // -- the condition -----------------------------------------------------------------------

  lemma ListedAll<T>(xs: seq<T>, s: set<T>)
    requires Elements(xs) == s && Distinct(xs)
    ensures |xs| == |s| && forall x :: x in xs <==> x in s
  {
    TotalOf(xs, x => 0);
    forall x ensures x in xs <==> x in s { assert x in Elements(xs) <==> x in xs; }
  }

  predicate StringsFit(names: seq<Text>) {
    forall s <- names :: StringFits(s)
  }

  predicate RecordsFit(srcs: seq<Source>) {
    (forall i | 0 <= i < |srcs| :: SourceFits(srcs[i])) && Known(srcs)
  }

  lemma RecordsOf(names: seq<Text>, sources: map<Text, Source>)
    ensures RecordsFit(SourcesOf(names, sources)) <==> forall s <- names :: SourceWritable(SourceOf(s, sources))
  {
    var srcs := SourcesOf(names, sources);
    forall i | 0 <= i < |names| ensures srcs[i] == SourceOf(names[i], sources) && names[i] in names { }
    if RecordsFit(srcs) {
      forall s <- names ensures SourceWritable(SourceOf(s, sources)) {
        var i :| 0 <= i < |names| && names[i] == s;
        assert SourceFits(srcs[i]);
      }
    }
    if forall s <- names :: SourceWritable(SourceOf(s, sources)) {
      forall i | 0 <= i < |names| ensures SourceFits(srcs[i]) && srcs[i].trust < |TRUST_LEVELS| {
        assert SourceWritable(SourceOf(names[i], sources));
      }
    }
  }

  /** The names of the tables fit exactly when those of the entries do. */
  lemma NamesFit(im: Image, entries: Entries, sources: map<Text, Source>)
    requires Describes(im, entries, sources)
    ensures |im.cats| == |Categories(entries)| && |im.srcs| == |Sources(entries)|
    ensures StringsFit(im.cats) <==> CategoriesFit(entries)
    ensures RecordsFit(im.srcs) <==> SourcesFit(entries, sources)
  {
    CategoriesAre(im, entries, sources);
    SourcesAre(im, entries, sources);
    ListedAll(im.cats, Categories(entries));
    ListedAll(SourceNames(im.srcs), Sources(entries));
    RecordsOf(SourceNames(im.srcs), sources);
  }

  predicate IdsFitToo(im: Image) {
    && (forall a | 0 <= a < |im.attrs| :: AttrFits(im.attrs[a], |im.cats|, |im.srcs|))
    && (forall i | 0 <= i < |im.rows| :: im.rows[i].attr < |im.attrs|)
  }

  lemma IdsFitThen(im: Image, entries: Entries, sources: map<Text, Source>)
    requires Describes(im, entries, sources)
    ensures |im.cats| < K16 && |im.srcs| < K16 ==> IdsFitToo(im)
  {
    if |im.cats| < K16 && |im.srcs| < K16 {
      TablesFit(entries, im.rows, im.attrs, im.cats, SourceNames(im.srcs));
    }
  }

  ghost function NeedsIn(im: Image): Needs {
    Needs(|im.rows|, |im.attrs|, |im.cats|, |im.srcs|, |Concat(AttrParts(im.attrs))|, |Concat(RowNames(im.rows))|,
          StringsFit(im.cats), RecordsFit(im.srcs))
  }

  lemma WritableNeeds(im: Image)
    requires Sorted(im.rows) && (|im.cats| < K16 && |im.srcs| < K16 ==> IdsFitToo(im))
    ensures Writable(im) <==> Enough(NeedsIn(im), im.builtAt)
  {
  }

  lemma DescribedNeeds(im: Image, entries: Entries, sources: map<Text, Source>)
    requires Describes(im, entries, sources)
    ensures Writable(im) <==> Enough(NeedsIn(im), im.builtAt)
  {
    IdsFitThen(im, entries, sources);
    WritableNeeds(im);
  }

  lemma FieldsAgree(im: Image, entries: Entries, sources: map<Text, Source>)
    requires |im.cats| == |Categories(entries)| && |im.srcs| == |Sources(entries)|
    requires |im.rows| == |Keys(entries)| && |im.attrs| == |Contents(entries)|
    requires StringsFit(im.cats) == CategoriesFit(entries) && RecordsFit(im.srcs) == SourcesFit(entries, sources)
    requires |Concat(AttrParts(im.attrs))| == Total(Contents(entries), SetSize())
    requires |Concat(RowNames(im.rows))| == Total(Keys(entries), NameSize())
    ensures NeedsIn(im) == NeedsOf(entries, sources)
  {
  }

  /** Counted on the image and on the entries, it comes to the same. */
  lemma NeedsAgree(im: Image, entries: Entries, sources: map<Text, Source>)
    requires Describes(im, entries, sources)
    ensures NeedsIn(im) == NeedsOf(entries, sources)
  {
    NamesFit(im, entries, sources);
    NamesLength(im, entries, sources);
    SetsLength(im, entries, sources);
    FieldsAgree(im, entries, sources);
  }

  /** Whichever image of the entries a builder comes to, it can be written
      exactly when the entries fit. */
  lemma WritableIffFit(im: Image, entries: Entries, sources: map<Text, Source>)
    requires Describes(im, entries, sources)
    ensures Writable(im) <==> Fit(entries, sources, im.builtAt)
  {
    DescribedNeeds(im, entries, sources);
    NeedsAgree(im, entries, sources);
  }
}
