/** The builder of an index file: names and claim sets interned, rows sorted,
    every number checked against its width, and the sections written out. */
module Builder {
  import opened Wrappers
  import opened Names
  import opened Layout

  /** What the lists say: for a key, each source's categories. */
  type Claimed = map<Text, seq<Text>>
  type Entries = map<Text, Claimed>

  datatype BuildError = TooManyNames | TooManyPublishers(source: Text) | UnknownTrust(source: Text)
                      | BlobTooLarge | NumberTooWide

  // -- sources ------------------------------------------------------------------

  const IGNORELIST_SOURCE := Ascii("ignorelist")
  const LOCAL_PUBLISHER := Ascii("local")
  const LOCAL_NAMES := {Ascii("turkeybite"), Ascii("custom")}

  /** What is assumed of a source nobody describes: nothing, unless it is one of the operator's own. */
  function DefaultSource(name: Text): Source {
    if name == IGNORELIST_SOURCE || name in LOCAL_NAMES then Source(name, LOCAL_PUBLISHER, HIGH, true, [])
    else Source(name, name, LOW, false, [])
  }

  /** The source as it is recorded under a name. */
  function SourceOf(name: Text, sources: map<Text, Source>): Source {
    (if name in sources then sources[name] else DefaultSource(name)).(name := name)
  }

  /** A list nobody configured is one of low trust by itself, and the operator's own are local and of high trust. */
  lemma RecordedAs(name: Text, sources: map<Text, Source>)
    ensures name in sources ==> SourceOf(name, sources) == sources[name].(name := name)
    ensures name !in sources && name in {Ascii("ignorelist"), Ascii("turkeybite"), Ascii("custom")} ==>
              SourceOf(name, sources) == Source(name, Ascii("local"), 2, true, [])
    ensures name !in sources && name !in {Ascii("ignorelist"), Ascii("turkeybite"), Ascii("custom")} ==>
              SourceOf(name, sources) == Source(name, name, 0, false, [])
  {
  }

  function SourcesOf(names: seq<Text>, sources: map<Text, Source>): (srcs: seq<Source>)
    ensures |srcs| == |names|
  {
    seq(|names|, i requires 0 <= i < |names| => SourceOf(names[i], sources))
  }

  // -- interning ------------------------------------------------------------------

  /** Names and their ids; `names` lists them in id order. */
  datatype Table = Table(names: seq<Text>, ids: map<Text, nat>) {
    predicate Valid() {
      && (forall i | 0 <= i < |names| :: names[i] in ids && ids[names[i]] == i)
      && (forall name <- ids :: ids[name] < |names| && names[ids[name]] == name)
    }

    /** The table with the name in it; a name already there keeps its id. */
    function Intern(name: Text): (t: Table)
      requires Valid()
      ensures t.Valid() && name in t.names && names <= t.names
      ensures forall n <- t.names :: n in names || n == name
    {
      if name in ids then assert names[ids[name]] in names; this
      else
        var t := Table(names + [name], ids[name := |names|]);
        assert t.names[|names|] == name;
        t
    }
  }

  lemma TableDistinct(t: Table)
    requires t.Valid()
    ensures Distinct(t.names)
  {
    forall i, j | 0 <= i < j < |t.names| ensures t.names[i] != t.names[j] {
      assert t.ids[t.names[i]] == i && t.ids[t.names[j]] == j;
    }
  }

  /** Some source says something. */
  predicate ClaimsAny(claims: Claimed) {
    exists s <- claims :: claims[s] != []
  }

  /** Some source of these keys claims the category. */
  predicate SaysCategory(entries: Entries, done: set<Text>, c: Text) {
    exists key <- done :: key in entries && exists s <- entries[key] :: c in entries[key][s]
  }

  /** The source claims something of one of these keys. */
  predicate Speaks(entries: Entries, done: set<Text>, s: Text) {
    exists key <- done :: key in entries && s in entries[key] && entries[key][s] != []
  }

  predicate Used(a: nat, rows: seq<Row>) {
    exists r <- rows :: r.attr == a
  }

  /** The tables hold nothing these keys do not need. */
  predicate Needed(entries: Entries, done: set<Text>, rows: seq<Row>, attrs: seq<Attr>, cats: seq<Text>,
                   srcs: seq<Text>)
  {
    && (forall c <- cats :: SaysCategory(entries, done, c)) && (forall s <- srcs :: Speaks(entries, done, s))
    && Distinct(attrs) && forall a | 0 <= a < |attrs| :: Used(a, rows)
  }

  /** Every name of the claims is in the tables. */
  predicate Registered(claims: Claimed, cats: seq<Text>, srcs: seq<Text>) {
    forall s <- claims :: claims[s] != [] ==> s in srcs && forall c <- claims[s] :: c in cats
  }

  /** The ids of the categories, in ascending order. */
  function IdsOf(names: seq<Text>, cats: seq<Text>, n: nat): (ids: seq<nat>)
    requires n <= |cats|
    ensures |ids| <= n
    ensures forall i | 0 <= i < |ids| :: ids[i] < n
  {
    if n == 0 then [] else IdsOf(names, cats, n - 1) + if cats[n - 1] in names then [n - 1] else []
  }

  lemma {:induction false} IdsMean(names: seq<Text>, cats: seq<Text>, n: nat)
    requires n <= |cats|
    ensures forall k: nat :: k in IdsOf(names, cats, n) <==> k < n && cats[k] in names
    ensures Distinct(IdsOf(names, cats, n))
  {
    if n > 0 { IdsMean(names, cats, n - 1); }
  }

  /** A key's claims by ids, sources in ascending order and each source's categories too. */
  function KeyOf(claims: Claimed, cats: seq<Text>, srcs: seq<Text>, n: nat): (attr: Attr)
    requires n <= |srcs|
    ensures |attr| <= n
    ensures forall i | 0 <= i < |attr| :: IdsFit(attr[i], |cats|, |srcs|)
  {
    if n == 0 then []
    else
      var s := srcs[n - 1];
      var rest := KeyOf(claims, cats, srcs, n - 1);
      if s in claims && claims[s] != [] then
        var c := Claim(n - 1, IdsOf(claims[s], cats, |cats|));
        assert IdsFit(c, |cats|, |srcs|);
        rest + [c]
      else rest
  }

  /** The claim's ids are ids of the tables. */
  predicate IdsFit(c: Claim, cats: nat, srcs: nat) {
    c.src < srcs && |c.cats| <= cats && forall k <- c.cats :: k < cats
  }

  predicate AttrIds(attr: Attr, cats: nat, srcs: nat) {
    |attr| <= srcs && forall i | 0 <= i < |attr| :: IdsFit(attr[i], cats, srcs)
  }

  function Key(claims: Claimed, cats: seq<Text>, srcs: seq<Text>): (attr: Attr)
    ensures AttrIds(attr, |cats|, |srcs|)
  {
    KeyOf(claims, cats, srcs, |srcs|)
  }

  lemma NotAgain(names: seq<Text>, more: seq<Text>, i: nat)
    requires names <= more && Distinct(more) && |names| <= i < |more|
    ensures more[i] !in names
  {
    forall k | 0 <= k < |names| ensures names[k] != more[i] { assert names[k] == more[k]; }
  }

  lemma {:induction false} IdsStable(names: seq<Text>, cats: seq<Text>, more: seq<Text>, n: nat)
    requires cats <= more && Distinct(more) && n <= |more| && forall c <- names :: c in cats
    ensures IdsOf(names, more, n) == IdsOf(names, cats, Min(n, |cats|))
  {
    if n > |cats| {
      IdsStable(names, cats, more, n - 1);
      NotAgain(cats, more, n - 1);
    } else if n > 0 {
      IdsStable(names, cats, more, n - 1);
    }
  }

  /** Names interned later do not change the key of claims registered before. */
  lemma {:induction false} KeyStable(claims: Claimed, cats: seq<Text>, srcs: seq<Text>,
                                     cats': seq<Text>, srcs': seq<Text>, n: nat)
    requires Registered(claims, cats, srcs) && cats <= cats' && srcs <= srcs' && Distinct(cats') && Distinct(srcs')
    requires n <= |srcs'|
    ensures KeyOf(claims, cats', srcs', n) == KeyOf(claims, cats, srcs, Min(n, |srcs|))
  {
    if n > 0 {
      KeyStable(claims, cats, srcs, cats', srcs', n - 1);
      var s := srcs'[n - 1];
      if n > |srcs| {
        NotAgain(srcs, srcs', n - 1);
      } else if s in claims && claims[s] != [] {
        IdsStable(claims[s], cats, cats', |cats'|);
      }
    }
  }

  lemma {:induction false} KeyEmpty(claims: Claimed, cats: seq<Text>, srcs: seq<Text>, n: nat)
    requires n <= |srcs|
    ensures KeyOf(claims, cats, srcs, n) == [] <==> forall i | 0 <= i < n :: srcs[i] !in claims || claims[srcs[i]] == []
  {
    if n > 0 { KeyEmpty(claims, cats, srcs, n - 1); }
  }

  lemma KeyClaims(claims: Claimed, cats: seq<Text>, srcs: seq<Text>)
    requires Registered(claims, cats, srcs)
    ensures Key(claims, cats, srcs) == [] <==> !ClaimsAny(claims)
  {
    KeyEmpty(claims, cats, srcs, |srcs|);
    if ClaimsAny(claims) {
      var s :| s in claims && claims[s] != [];
      var i :| 0 <= i < |srcs| && srcs[i] == s;
    } else {
      forall i | 0 <= i < |srcs| ensures srcs[i] !in claims || claims[srcs[i]] == [] {
      }
    }
  }

  method InternNames(names: seq<Text>, t0: Table) returns (t: Table)
    requires t0.Valid()
    ensures t.Valid() && t0.names <= t.names && forall n <- names :: n in t.names
    ensures forall n <- t.names :: n in t0.names || n in names
  {
    t := t0;
    for i := 0 to |names|
      invariant t.Valid() && t0.names <= t.names
      invariant forall j | 0 <= j < i :: names[j] in t.names
      invariant forall n <- t.names :: n in t0.names || n in names
    {
      t := t.Intern(names[i]);
    }
  }

  /** Enters the names of one key's claims; a source that says nothing is not entered. */
  method InternClaims(claims: Claimed, cats0: Table, srcs0: Table) returns (cats: Table, srcs: Table)
    requires cats0.Valid() && srcs0.Valid()
    ensures cats.Valid() && srcs.Valid() && cats0.names <= cats.names && srcs0.names <= srcs.names
    ensures Registered(claims, cats.names, srcs.names)
    ensures forall c <- cats.names :: c in cats0.names || exists s <- claims :: c in claims[s]
    ensures forall s <- srcs.names :: s in srcs0.names || (s in claims && claims[s] != [])
  {
    cats, srcs := cats0, srcs0;
    var rest := claims.Keys;
    while rest != {}
      invariant rest <= claims.Keys
      invariant cats.Valid() && srcs.Valid() && cats0.names <= cats.names && srcs0.names <= srcs.names
      invariant forall s <- claims :: s !in rest && claims[s] != [] ==>
                  s in srcs.names && forall c <- claims[s] :: c in cats.names
      invariant forall c <- cats.names :: c in cats0.names || exists s <- claims :: c in claims[s]
      invariant forall s <- srcs.names :: s in srcs0.names || (s in claims && claims[s] != [])
      decreases |rest|
    {
      var s :| s in rest;
      if claims[s] != [] {
        srcs := srcs.Intern(s);
        cats := InternNames(claims[s], cats);
      }
      rest := rest - {s};
    }
  }

  /** A row tells its key's claims, through its claim set. */
  predicate Tells(r: Row, entries: Entries, attrs: seq<Attr>, cats: seq<Text>, srcs: seq<Text>) {
    var key := ReverseLabels(r.name);
    && r.attr < |attrs| && key in entries && ClaimsAny(entries[key])
    && Registered(entries[key], cats, srcs) && attrs[r.attr] == Key(entries[key], cats, srcs)
  }

  predicate Named(name: Text, rows: seq<Row>) {
    exists r <- rows :: r.name == name
  }

  predicate AttrsFit(attrs: seq<Attr>, cats: nat, srcs: nat) {
    forall a | 0 <= a < |attrs| :: AttrIds(attrs[a], cats, srcs)
  }

  /** The rows tell these keys of the entries and no others. */
  predicate Interned(entries: Entries, done: set<Text>, rows: seq<Row>, attrs: seq<Attr>, cats: seq<Text>,
                     srcs: seq<Text>)
  {
    && Distinct(cats) && Distinct(srcs) && AttrsFit(attrs, |cats|, |srcs|)
    && AllTell(rows, entries, done, attrs, cats, srcs) && OwnNames(rows) && AllNamed(done, entries, rows)
  }

  predicate AllTell(rows: seq<Row>, entries: Entries, done: set<Text>, attrs: seq<Attr>, cats: seq<Text>,
                    srcs: seq<Text>)
  {
    forall r <- rows :: Tells(r, entries, attrs, cats, srcs) && ReverseLabels(r.name) in done
  }

  predicate OwnNames(rows: seq<Row>) {
    forall i, j | 0 <= i < j < |rows| :: rows[i].name != rows[j].name
  }

  predicate AllNamed(done: set<Text>, entries: Entries, rows: seq<Row>) {
    forall key <- done :: key in entries && (ClaimsAny(entries[key]) ==> Named(ReverseLabels(key), rows))
  }

  predicate AttrIdsOf(ids: map<Attr, nat>, attrs: seq<Attr>) {
    && (forall a | 0 <= a < |attrs| :: attrs[a] in ids && ids[attrs[a]] == a)
    && (forall attr <- ids :: ids[attr] < |attrs| && attrs[ids[attr]] == attr)
  }

  lemma TellsStill(r: Row, entries: Entries, attrs: seq<Attr>, cats: seq<Text>, srcs: seq<Text>,
                   attrs': seq<Attr>, cats': seq<Text>, srcs': seq<Text>)
    requires Tells(r, entries, attrs, cats, srcs) && attrs <= attrs' && cats <= cats' && srcs <= srcs'
    requires Distinct(cats') && Distinct(srcs')
    ensures Tells(r, entries, attrs', cats', srcs')
  {
    KeyStable(entries[ReverseLabels(r.name)], cats, srcs, cats', srcs', |srcs'|);
  }

  /** Nothing already interned changes as tables grow. */
  lemma InternedStill(entries: Entries, done: set<Text>, rows: seq<Row>, attrs: seq<Attr>, cats: seq<Text>,
                      srcs: seq<Text>, attrs': seq<Attr>, cats': seq<Text>, srcs': seq<Text>)
    requires Interned(entries, done, rows, attrs, cats, srcs) && attrs <= attrs' && cats <= cats' && srcs <= srcs'
    requires Distinct(cats') && Distinct(srcs') && AttrsFit(attrs', |cats'|, |srcs'|)
    ensures Interned(entries, done, rows, attrs', cats', srcs')
  {
    forall r <- rows ensures Tells(r, entries, attrs', cats', srcs') && ReverseLabels(r.name) in done {
      TellsStill(r, entries, attrs, cats, srcs, attrs', cats', srcs');
    }
  }

  /** One more key, with or without a row. */
  lemma InternedNext(entries: Entries, done: set<Text>, rows: seq<Row>, attrs: seq<Attr>, cats: seq<Text>,
                     srcs: seq<Text>, key: Text, a: nat)
    requires Interned(entries, done, rows, attrs, cats, srcs) && key in entries && key !in done
    requires Registered(entries[key], cats, srcs)
    requires ClaimsAny(entries[key]) ==> a < |attrs| && attrs[a] == Key(entries[key], cats, srcs)
    ensures var rows' := if ClaimsAny(entries[key]) then rows + [Row(ReverseLabels(key), a)] else rows;
            Interned(entries, done + {key}, rows', attrs, cats, srcs)
  {
    ReverseTwice(key);
    var r := Row(ReverseLabels(key), a);
    if ClaimsAny(entries[key]) {
      assert Tells(r, entries, attrs, cats, srcs);
      OwnNamesNext(rows, r, entries, done, attrs, cats, srcs);
      AllNamedNext(done, entries, rows, r, key);
      assert AllTell(rows + [r], entries, done + {key}, attrs, cats, srcs);
    } else {
      assert AllTell(rows, entries, done + {key}, attrs, cats, srcs);
    }
  }

  lemma OwnNamesNext(rows: seq<Row>, r: Row, entries: Entries, done: set<Text>, attrs: seq<Attr>,
                     cats: seq<Text>, srcs: seq<Text>)
    requires AllTell(rows, entries, done, attrs, cats, srcs) && OwnNames(rows) && ReverseLabels(r.name) !in done
    ensures OwnNames(rows + [r])
  {
    forall i | 0 <= i < |rows| ensures rows[i].name != r.name {
      assert rows[i] in rows;
      assert ReverseLabels(rows[i].name) in done;
    }
  }

  lemma NamedStill(name: Text, rows: seq<Row>, rows': seq<Row>)
    requires Named(name, rows) && forall x <- rows :: x in rows'
    ensures Named(name, rows')
  {
  }

  lemma AllNamedNext(done: set<Text>, entries: Entries, rows: seq<Row>, r: Row, key: Text)
    requires AllNamed(done, entries, rows) && key in entries && r.name == ReverseLabels(key)
    ensures AllNamed(done + {key}, entries, rows + [r])
  {
    assert r in rows + [r];
    forall k <- done + {key} ensures k in entries && (ClaimsAny(entries[k]) ==> Named(ReverseLabels(k), rows + [r])) {
      if k != key && ClaimsAny(entries[k]) { NamedStill(ReverseLabels(k), rows, rows + [r]); }
    }
  }

  lemma AttrsGrow(attrs: seq<Attr>, cats: nat, srcs: nat, cats': nat, srcs': nat)
    requires AttrsFit(attrs, cats, srcs) && cats <= cats' && srcs <= srcs'
    ensures AttrsFit(attrs, cats', srcs')
  {
    forall a | 0 <= a < |attrs| ensures AttrIds(attrs[a], cats', srcs') {
      forall i | 0 <= i < |attrs[a]| ensures IdsFit(attrs[a][i], cats', srcs') {
        assert IdsFit(attrs[a][i], cats, srcs);
      }
    }
  }

  /** The tables of a build as they grow. */
  datatype Tables = Tables(rows: seq<Row>, attrs: seq<Attr>, attrIds: map<Attr, nat>, cats: Table, srcs: Table) {
    predicate Valid(entries: Entries, done: set<Text>) {
      && cats.Valid() && srcs.Valid() && AttrIdsOf(attrIds, attrs)
      && Interned(entries, done, rows, attrs, cats.names, srcs.names)
    }

    predicate Lean(entries: Entries, done: set<Text>) {
      Needed(entries, done, rows, attrs, cats.names, srcs.names)
    }
  }

  /** The id of a claim set, which is entered when it is new. */
  method InternAttr(attr: Attr, ids0: map<Attr, nat>, attrs0: seq<Attr>)
    returns (id: nat, ids: map<Attr, nat>, attrs: seq<Attr>)
    requires AttrIdsOf(ids0, attrs0)
    ensures AttrIdsOf(ids, attrs) && attrs0 <= attrs && id < |attrs| && attrs[id] == attr
    ensures attrs == attrs0 || (attrs == attrs0 + [attr] && id == |attrs0|)
  {
    ids, attrs := ids0, attrs0;
    if attr in ids { return ids[attr], ids, attrs; }
    id := |attrs|;
    ids, attrs := ids[attr := id], attrs + [attr];
  }

  /** The names one more key brings in are needed for it. */
  lemma NamesNeeded(entries: Entries, done: set<Text>, key: Text, cats: seq<Text>, srcs: seq<Text>,
                    cats': seq<Text>, srcs': seq<Text>)
    requires key in entries
    requires (forall c <- cats :: SaysCategory(entries, done, c)) && forall s <- srcs :: Speaks(entries, done, s)
    requires forall c <- cats' :: c in cats || exists s <- entries[key] :: c in entries[key][s]
    requires forall s <- srcs' :: s in srcs || (s in entries[key] && entries[key][s] != [])
    ensures forall c <- cats' :: SaysCategory(entries, done + {key}, c)
    ensures forall s <- srcs' :: Speaks(entries, done + {key}, s)
  {
    assert key in done + {key} && forall k <- done :: k in done + {key};
    forall c <- cats' ensures SaysCategory(entries, done + {key}, c) {
      if c in cats { assert SaysCategory(entries, done, c); }
    }
    forall s <- srcs' ensures Speaks(entries, done + {key}, s) {
      if s in srcs { assert Speaks(entries, done, s); }
    }
  }

  lemma AttrsNeeded(rows: seq<Row>, attrs: seq<Attr>, rows': seq<Row>, attrs': seq<Attr>, ids: map<Attr, nat>)
    requires (forall a | 0 <= a < |attrs| :: Used(a, rows)) && AttrIdsOf(ids, attrs')
    requires rows <= rows' && attrs <= attrs'
    requires |attrs'| > |attrs| ==> |attrs'| == |attrs| + 1 && Used(|attrs|, rows')
    ensures Distinct(attrs') && forall a | 0 <= a < |attrs'| :: Used(a, rows')
  {
    forall i, j | 0 <= i < j < |attrs'| ensures attrs'[i] != attrs'[j] {
      assert ids[attrs'[i]] == i && ids[attrs'[j]] == j;
    }
    forall a | 0 <= a < |attrs| ensures Used(a, rows') {
      assert Used(a, rows);
      var r :| r in rows && r.attr == a;
      assert r in rows';
    }
  }

  lemma NeededNext(entries: Entries, done: set<Text>, key: Text, t0: Tables, t: Tables)
    requires t0.Lean(entries, done) && key in entries && AttrIdsOf(t.attrIds, t.attrs)
    requires forall c <- t.cats.names :: c in t0.cats.names || exists s <- entries[key] :: c in entries[key][s]
    requires forall s <- t.srcs.names :: s in t0.srcs.names || (s in entries[key] && entries[key][s] != [])
    requires t0.rows <= t.rows && t0.attrs <= t.attrs
    requires |t.attrs| > |t0.attrs| ==> |t.attrs| == |t0.attrs| + 1 && Used(|t0.attrs|, t.rows)
    ensures t.Lean(entries, done + {key})
  {
    NamesNeeded(entries, done, key, t0.cats.names, t0.srcs.names, t.cats.names, t.srcs.names);
    AttrsNeeded(t0.rows, t0.attrs, t.rows, t.attrs, t.attrIds);
  }

  lemma RowInterned(entries: Entries, done: set<Text>, key: Text, rows: seq<Row>, attrs: seq<Attr>, cats: seq<Text>,
                    srcs: seq<Text>, attrs': seq<Attr>, cats': seq<Text>, srcs': seq<Text>, id: nat)
    requires Interned(entries, done, rows, attrs, cats, srcs) && key in entries && key !in done
    requires cats <= cats' && srcs <= srcs' && Distinct(cats') && Distinct(srcs')
    requires Registered(entries[key], cats', srcs')
    requires attrs' == attrs || attrs' == attrs + [Key(entries[key], cats', srcs')]
    requires ClaimsAny(entries[key]) ==> id < |attrs'| && attrs'[id] == Key(entries[key], cats', srcs')
    ensures var rows' := if ClaimsAny(entries[key]) then rows + [Row(ReverseLabels(key), id)] else rows;
            Interned(entries, done + {key}, rows', attrs', cats', srcs')
  {
    AttrsGrow(attrs, |cats|, |srcs|, |cats'|, |srcs'|);
    InternedStill(entries, done, rows, attrs, cats, srcs, attrs', cats', srcs');
    InternedNext(entries, done, rows, attrs', cats', srcs', key, id);
  }

  /** Enters one key's claim set and its row; one about which nobody says anything gets neither. */
  method InternRow(entries: Entries, key: Text, ghost done: set<Text>, t0: Tables, cats: Table, srcs: Table)
    returns (t: Tables)
    requires t0.Valid(entries, done) && key in entries && key !in done
    requires cats.Valid() && srcs.Valid() && t0.cats.names <= cats.names && t0.srcs.names <= srcs.names
    requires Registered(entries[key], cats.names, srcs.names)
    ensures t.Valid(entries, done + {key}) && t.cats == cats && t.srcs == srcs
    ensures t0.rows <= t.rows && t0.attrs <= t.attrs
    ensures |t.attrs| > |t0.attrs| ==> |t.attrs| == |t0.attrs| + 1 && Used(|t0.attrs|, t.rows)
  {
    TableDistinct(cats);
    TableDistinct(srcs);
    KeyClaims(entries[key], cats.names, srcs.names);
    var attr := Key(entries[key], cats.names, srcs.names);
    var id, attrIds, attrs := 0, t0.attrIds, t0.attrs;
    if attr != [] { id, attrIds, attrs := InternAttr(attr, attrIds, attrs); }
    RowInterned(entries, done, key, t0.rows, t0.attrs, t0.cats.names, t0.srcs.names, attrs, cats.names, srcs.names, id);
    var rows := if attr == [] then t0.rows else t0.rows + [Row(ReverseLabels(key), id)];
    assert attr != [] ==> rows[|t0.rows|] in rows;
    t := Tables(rows, attrs, attrIds, cats, srcs);
  }

  /** Interns one key. */
  method InternKey(entries: Entries, key: Text, ghost done: set<Text>, t0: Tables) returns (t: Tables)
    requires t0.Valid(entries, done) && t0.Lean(entries, done) && key in entries && key !in done
    ensures t.Valid(entries, done + {key}) && t.Lean(entries, done + {key})
  {
    var cats, srcs := InternClaims(entries[key], t0.cats, t0.srcs);
    t := InternRow(entries, key, done, t0, cats, srcs);
    NeededNext(entries, done, key, t0, t);
  }

  /** Interns every name and claim set, key after key. */
  method InternKeys(entries: Entries) returns (t: Tables)
    ensures t.Valid(entries, entries.Keys) && t.Lean(entries, entries.Keys)
  {
    t := Tables([], [], map[], Table([], map[]), Table([], map[]));
    var rest := entries.Keys;
    while rest != {}
      invariant rest <= entries.Keys
      invariant t.Valid(entries, entries.Keys - rest)
      invariant t.Lean(entries, entries.Keys - rest)
      decreases |rest|
    {
      var key :| key in rest;
      t := InternKey(entries, key, entries.Keys - rest, t);
      assert entries.Keys - (rest - {key}) == entries.Keys - rest + {key};
      rest := rest - {key};
    }
    assert entries.Keys - rest == entries.Keys;
  }

  /** Interns them all; the rows come back sorted. */
  method InternAll(entries: Entries)
    returns (rows: seq<Row>, attrs: seq<Attr>, cats: seq<Text>, srcs: seq<Text>)
    ensures Interned(entries, entries.Keys, rows, attrs, cats, srcs) && Sorted(rows)
    ensures Needed(entries, entries.Keys, rows, attrs, cats, srcs)
  {
    var t := InternKeys(entries);
    SortedInterned(entries, t.rows, t.attrs, t.cats.names, t.srcs.names);
    SortedNeeded(t.rows, t.attrs);
    rows, attrs, cats, srcs := SortRows(t.rows), t.attrs, t.cats.names, t.srcs.names;
  }

  // -- sorting the rows -------------------------------------------------------------

  function InsertRow(rows: seq<Row>, r: Row): (all: seq<Row>)
    ensures |all| == |rows| + 1
    ensures forall x :: x in all <==> x in rows || x == r
  {
    if rows == [] then [r]
    else if Less(r.name, rows[0].name) then [r] + rows
    else assert rows == [rows[0]] + rows[1..]; [rows[0]] + InsertRow(rows[1..], r)
  }

  /** The rows in the order of their names' bytes. */
  function SortRows(rows: seq<Row>): (sorted: seq<Row>)
    ensures |sorted| == |rows|
    ensures forall x :: x in sorted <==> x in rows
  {
    if rows == [] then []
    else
      var n := |rows| - 1;
      assert rows == rows[..n] + [rows[n]];
      InsertRow(SortRows(rows[..n]), rows[n])
  }

  lemma SortedTail(rows: seq<Row>)
    requires Sorted(rows) && rows != []
    ensures Sorted(rows[1..]) && forall x <- rows[1..] :: Less(rows[0].name, x.name)
  {
    forall i, j | 0 <= i < j < |rows[1..]| ensures Before(rows[1..], i, j) { assert Before(rows, i + 1, j + 1); }
    forall i | 0 <= i < |rows[1..]| ensures Less(rows[0].name, rows[1..][i].name) { assert Before(rows, 0, i + 1); }
  }

  lemma SortedCons(r: Row, rows: seq<Row>)
    requires Sorted(rows) && forall x <- rows :: Less(r.name, x.name)
    ensures Sorted([r] + rows)
  {
    var all := [r] + rows;
    forall i, j | 0 <= i < j < |all| ensures Before(all, i, j) {
      if i > 0 { assert Before(rows, i - 1, j - 1); } else { assert rows[j - 1] in rows; }
    }
  }

  lemma {:induction false} InsertSorted(rows: seq<Row>, r: Row)
    requires Sorted(rows) && forall x <- rows :: x.name != r.name
    ensures Sorted(InsertRow(rows, r))
  {
    if rows == [] {
    } else {
      SortedTail(rows);
      if Less(r.name, rows[0].name) {
        forall x <- rows ensures Less(r.name, x.name) {
          if x != rows[0] {
            assert x in rows[1..];
            LessTransitive(r.name, rows[0].name, x.name);
          }
        }
        SortedCons(r, rows);
      } else {
        assert rows[0] in rows;
        LessTotal(r.name, rows[0].name);
        assert forall x <- rows[1..] :: x in rows;
        InsertSorted(rows[1..], r);
        SortedCons(rows[0], InsertRow(rows[1..], r));
      }
    }
  }

  lemma {:induction false} SortSorted(rows: seq<Row>)
    requires forall i, j | 0 <= i < j < |rows| :: rows[i].name != rows[j].name
    ensures Sorted(SortRows(rows))
  {
    if rows != [] {
      var n := |rows| - 1;
      SortSorted(rows[..n]);
      InsertSorted(SortRows(rows[..n]), rows[n]);
    }
  }

  lemma SortedInterned(entries: Entries, rows: seq<Row>, attrs: seq<Attr>, cats: seq<Text>, srcs: seq<Text>)
    requires Interned(entries, entries.Keys, rows, attrs, cats, srcs)
    ensures Interned(entries, entries.Keys, SortRows(rows), attrs, cats, srcs) && Sorted(SortRows(rows))
  {
    var sorted := SortRows(rows);
    SortSorted(rows);
    forall i, j | 0 <= i < j < |sorted| ensures sorted[i].name != sorted[j].name {
      assert Before(sorted, i, j);
      LessOneWay(sorted[i].name, sorted[j].name);
    }
    forall key <- entries.Keys ensures ClaimsAny(entries[key]) ==> Named(ReverseLabels(key), sorted) {
      if ClaimsAny(entries[key]) { NamedStill(ReverseLabels(key), rows, sorted); }
    }
  }

  lemma SortedNeeded(rows: seq<Row>, attrs: seq<Attr>)
    requires forall a | 0 <= a < |attrs| :: Used(a, rows)
    ensures forall a | 0 <= a < |attrs| :: Used(a, SortRows(rows))
  {
    forall a | 0 <= a < |attrs| ensures Used(a, SortRows(rows)) {
      assert Used(a, rows);
      var r :| r in rows && r.attr == a;
      assert r in SortRows(rows);
    }
  }

  // -- writing ------------------------------------------------------------------------

  method WriteStrings(names: seq<Text>) returns (r: Result<seq<Byte>, BuildError>)
    ensures r.Ok? <==> forall s <- names :: StringFits(s)
    ensures r.Ok? ==> r.value == Concat(Strings(names))
  {
    var out := [];
    for i := 0 to |names|
      invariant out == Concat(Strings(names)[..i]) && forall j | 0 <= j < i :: StringFits(names[j])
    {
      if |names[i]| >= K16 {
        assert names[i] in names && !StringFits(names[i]);
        return Err(NumberTooWide);
      }
      OffsetNext(Strings(names), i);
      out := out + Str(names[i]);
    }
    assert Strings(names)[..|names|] == Strings(names);
    r := Ok(out);
  }

  method WriteSource(s: Source) returns (r: Result<seq<Byte>, BuildError>)
    ensures r.Ok? <==> SourceFits(s) && s.trust < |TRUST_LEVELS|
    ensures r.Ok? ==> r.value == SourceRecord(s)
  {
    if |s.derivedFrom| > 0xFF { return Err(TooManyPublishers(s.name)); }
    if |s.name| >= K16 || |s.publisher| >= K16 { return Err(NumberTooWide); }
    if s.trust >= |TRUST_LEVELS| { return Err(UnknownTrust(s.name)); }
    var derived := WriteStrings(s.derivedFrom);
    if derived.Err? { return derived; }
    var marks := [s.trust, if s.local then 1 else 0, |s.derivedFrom|];
    assert marks == [s.trust % 256, if s.local then 1 else 0, |s.derivedFrom| % 256];
    r := Ok(Str(s.name) + (Str(s.publisher) + (marks + derived.value)));
  }

  method WriteSources(srcs: seq<Source>) returns (r: Result<seq<Byte>, BuildError>)
    ensures r.Ok? <==> (forall i | 0 <= i < |srcs| :: SourceFits(srcs[i])) && Known(srcs)
    ensures r.Ok? ==> r.value == Concat(Records(srcs))
  {
    var out := [];
    for i := 0 to |srcs|
      invariant out == Concat(Records(srcs)[..i])
      invariant forall j | 0 <= j < i :: SourceFits(srcs[j]) && srcs[j].trust < |TRUST_LEVELS|
    {
      var record := WriteSource(srcs[i]);
      if record.Err? { return record; }
      OffsetNext(Records(srcs), i);
      out := out + record.value;
    }
    assert Records(srcs)[..|srcs|] == Records(srcs);
    r := Ok(out);
  }

  method WriteClaim(c: Claim) returns (out: seq<Byte>)
    ensures out == ClaimBytes(c)
  {
    var ids := [];
    for i := 0 to |c.cats|
      invariant ids == Concat(Shorts(c.cats)[..i])
    {
      OffsetNext(Shorts(c.cats), i);
      ids := ids + U16(c.cats[i]);
    }
    assert Shorts(c.cats)[..|c.cats|] == Shorts(c.cats);
    out := U16(c.src) + (U16(|c.cats|) + ids);
  }

  method WriteAttr(attr: Attr) returns (out: seq<Byte>)
    ensures out == AttrBytes(attr)
  {
    var claims := [];
    for i := 0 to |attr|
      invariant claims == Concat(ClaimParts(attr)[..i])
    {
      var claim := WriteClaim(attr[i]);
      OffsetNext(ClaimParts(attr), i);
      claims := claims + claim;
    }
    assert ClaimParts(attr)[..|attr|] == ClaimParts(attr);
    out := U16(|attr|) + claims;
  }

  /** The claim sets and before them where each starts, unless a start is past what 4 bytes hold. */
  method WriteAttrs(attrs: seq<Attr>) returns (r: Result<(seq<Byte>, seq<Byte>), BuildError>)
    ensures r.Ok? <==> |Concat(AttrParts(attrs))| < K32
    ensures r.Ok? ==> r.value == (Concat(Words(Offsets(AttrParts(attrs)))), Concat(AttrParts(attrs)))
  {
    ghost var parts := AttrParts(attrs);
    ghost var words := Words(Offsets(parts));
    var blob, offsets := [], [];
    for i := 0 to |attrs|
      invariant blob == Concat(parts[..i]) && offsets == Concat(words[..i])
    {
      OffsetGrows(parts, i);
      if |blob| >= K32 { return Err(NumberTooWide); }
      OffsetNext(words, i);
      offsets := offsets + U32(|blob|);
      var bytes := WriteAttr(attrs[i]);
      OffsetNext(parts, i);
      blob := blob + bytes;
    }
    OffsetAll(parts);
    assert parts[..|attrs|] == parts;
    if |blob| >= K32 { return Err(NumberTooWide); }
    OffsetNext(words, |attrs|);
    assert words[..|attrs| + 1] == words;
    r := Ok((offsets + U32(|blob|), blob));
  }

  /** Where each name starts in the blob, unless it grows past what 4 bytes hold. */
  method WriteOffsets(rows: seq<Row>) returns (r: Result<seq<Byte>, BuildError>)
    ensures r.Ok? <==> |Concat(RowNames(rows))| < K32
    ensures r.Ok? ==> r.value == Concat(Words(Offsets(RowNames(rows))))
  {
    ghost var names := RowNames(rows);
    ghost var words := Words(Offsets(names));
    var offset, offsets := 0, [];
    for i := 0 to |rows|
      invariant offset == Offset(names, i) < K32 && offsets == Concat(words[..i])
    {
      OffsetNext(words, i);
      offsets := offsets + U32(offset);
      OffsetNext(names, i);
      offset := offset + |rows[i].name|;
      OffsetGrows(names, i + 1);
      if offset > 0xFFFF_FFFF { return Err(BlobTooLarge); }
    }
    OffsetAll(names);
    OffsetNext(words, |rows|);
    assert words[..|rows| + 1] == words;
    r := Ok(offsets + U32(offset));
  }

  method WriteRows(rows: seq<Row>) returns (attrs: seq<Byte>, blob: seq<Byte>)
    ensures attrs == Concat(Words(RowAttrs(rows))) && blob == Concat(RowNames(rows))
  {
    attrs, blob := [], [];
    for i := 0 to |rows|
      invariant attrs == Concat(Words(RowAttrs(rows))[..i]) && blob == Concat(RowNames(rows)[..i])
    {
      OffsetNext(Words(RowAttrs(rows)), i);
      OffsetNext(RowNames(rows), i);
      attrs, blob := attrs + U32(rows[i].attr), blob + rows[i].name;
    }
    assert Words(RowAttrs(rows))[..|rows|] == Words(RowAttrs(rows)) && RowNames(rows)[..|rows|] == RowNames(rows);
  }

  // -- building -----------------------------------------------------------------------

  /** The image tells the entries and holds nothing else, every source as it is recorded. */
  predicate Describes(im: Image, entries: Entries, sources: map<Text, Source>) {
    && im.srcs == SourcesOf(SourceNames(im.srcs), sources)
    && Interned(entries, entries.Keys, im.rows, im.attrs, im.cats, SourceNames(im.srcs)) && Sorted(im.rows)
    && Needed(entries, entries.Keys, im.rows, im.attrs, im.cats, SourceNames(im.srcs))
  }

  function SourceNames(srcs: seq<Source>): (names: seq<Text>)
    ensures |names| == |srcs|
  {
    seq(|srcs|, i requires 0 <= i < |srcs| => srcs[i].name)
  }

  /** The ids fit once the tables do. */
  lemma TablesFit(entries: Entries, rows: seq<Row>, attrs: seq<Attr>, cats: seq<Text>, srcs: seq<Text>)
    requires Interned(entries, entries.Keys, rows, attrs, cats, srcs) && |cats| < K16 && |srcs| < K16
    ensures forall a | 0 <= a < |attrs| :: AttrFits(attrs[a], |cats|, |srcs|)
    ensures forall i | 0 <= i < |rows| :: rows[i].attr < |attrs|
  {
    forall a | 0 <= a < |attrs| ensures AttrFits(attrs[a], |cats|, |srcs|) {
      assert AttrIds(attrs[a], |cats|, |srcs|);
      forall i | 0 <= i < |attrs[a]| ensures ClaimFits(attrs[a][i], |cats|, |srcs|) {
        assert IdsFit(attrs[a][i], |cats|, |srcs|);
      }
    }
    forall i | 0 <= i < |rows| ensures rows[i].attr < |attrs| {
      assert rows[i] in rows;
      assert Tells(rows[i], entries, attrs, cats, srcs);
    }
  }

  lemma ConcatMore(parts: seq<seq<Byte>>, last: seq<Byte>)
    ensures Concat(parts + [last]) == Concat(parts) + last
  {
    assert (parts + [last])[..|parts|] == parts;
  }

  lemma FourMore(parts: seq<seq<Byte>>, a: seq<Byte>, b: seq<Byte>, c: seq<Byte>, d: seq<Byte>)
    ensures Concat(parts + [a, b, c, d]) == Concat(parts) + a + b + c + d
  {
    ConcatMore(parts, a);
    ConcatMore(parts + [a], b);
    ConcatMore(parts + [a] + [b], c);
    ConcatMore(parts + [a] + [b] + [c], d);
    assert parts + [a] + [b] + [c] + [d] == parts + [a, b, c, d];
  }

  lemma EightParts(a: seq<Byte>, b: seq<Byte>, c: seq<Byte>, d: seq<Byte>, e: seq<Byte>, f: seq<Byte>, g: seq<Byte>,
                   h: seq<Byte>)
    ensures Concat([a, b, c, d, e, f, g, h]) == a + b + c + d + e + f + g + h
  {
    FourMore([], a, b, c, d);
    assert [] + [a, b, c, d] == [a, b, c, d];
    FourMore([a, b, c, d], e, f, g, h);
    assert [a, b, c, d] + [e, f, g, h] == [a, b, c, d, e, f, g, h];
  }

  /** Every number of the image fits its width, and every trust level is the format's. */
  predicate Writable(im: Image) {
    Fits(im) && Known(im.srcs)
  }

  /** Builds the file of the entries, which is made unless a number does not fit its width. */
  method BuildImage(entries: Entries, sources: map<Text, Source>, builtAt: nat)
    returns (r: Result<seq<Byte>, BuildError>, ghost im: Image)
    ensures Describes(im, entries, sources) && im.builtAt == builtAt
    ensures r.Ok? <==> Writable(im)
    ensures r.Ok? ==> r.value == Encode(im)
  {
    var rows, attrs, cats, names := InternAll(entries);
    var srcs := SourcesOf(names, sources);
    im := Image(builtAt, cats, srcs, attrs, rows);
    assert SourceNames(srcs) == names;
    if |cats| > 0xFFFF || |srcs| > 0xFFFF { return Err(TooManyNames), im; }
    TablesFit(entries, rows, attrs, cats, names);
    if builtAt >= K64 || |rows| >= K32 || |attrs| >= K32 { return Err(NumberTooWide), im; }
    var out := MAGIC + (U64(builtAt) + (U32(|rows|) + (U32(|attrs|) + (U16(|cats|) + U16(|srcs|)))));
    var catBytes := WriteStrings(cats);
    if catBytes.Err? { return catBytes, im; }
    var srcBytes := WriteSources(srcs);
    if srcBytes.Err? { return srcBytes, im; }
    var attrBytes := WriteAttrs(attrs);
    if attrBytes.Err? { return Err(attrBytes.error), im; }
    var offsets := WriteOffsets(rows);
    if offsets.Err? { return offsets, im; }
    var rowAttrs, blob := WriteRows(rows);
    EightParts(out, catBytes.value, srcBytes.value, attrBytes.value.0, attrBytes.value.1, offsets.value,
               rowAttrs, blob);
    r := Ok(out + catBytes.value + srcBytes.value + attrBytes.value.0 + attrBytes.value.1 + offsets.value
            + rowAttrs + blob);
  }
}
