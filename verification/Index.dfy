/** The reader of an index file: opening and reopening it, binary search over the
    stored names, claim sets decoded on demand, and what was read remembered. */
module Index {
  import opened Wrappers
  import opened Names
  import opened Layout
  import opened Reading

  const CLAIMS_MEMO_MAX := 20000

  datatype OpenError = TooShort | OlderFormat(number: Byte) | NotAnIndex | UnknownTrust(source: Text, trust: nat)

  // -- reading one thing -------------------------------------------------------

  method ReadString(f: seq<Byte>, pos: nat, ghost s: Text) returns (t: Text, next: nat)
    requires At(f, pos, Str(s)) && StringFits(s)
    ensures t == s && next == pos + |Str(s)|
  {
    AtParts(f, pos, U16(|s|), s);
    Back16(f, pos, |s|);
    var length := Read16(f, pos);
    t, next := f[pos + 2..pos + 2 + length], pos + 2 + length;
  }

  method ReadNames(f: seq<Byte>, start: nat, count: nat, ghost names: seq<Text>) returns (read: seq<Text>, pos: nat)
    requires At(f, start, Concat(Strings(names))) && count == |names| && forall s <- names :: StringFits(s)
    ensures read == names && pos == start + |Concat(Strings(names))|
  {
    read, pos := [], start;
    for i := 0 to count
      invariant read == names[..i] && pos == start + Offset(Strings(names), i)
    {
      PartAt(f, start, Strings(names), i);
      OffsetNext(Strings(names), i);
      assert names[i] in names;
      var name;
      name, pos := ReadString(f, pos, names[i]);
      read := read + [name];
    }
    OffsetAll(Strings(names));
  }

  /** The three bytes in the middle of a source's record. */
  function Marks(s: Source): seq<Byte>
    requires SourceFits(s)
  {
    [s.trust % 256, if s.local then 1 else 0, |s.derivedFrom| % 256]
  }

  lemma MarksBack(f: seq<Byte>, pos: nat, s: Source)
    requires SourceFits(s) && At(f, pos, Marks(s))
    ensures pos + 3 <= |f| && f[pos] == s.trust && (f[pos + 1] % 2 == 1 <==> s.local) && f[pos + 2] == |s.derivedFrom|
  {
    AtByte(f, pos, Marks(s), 0);
    AtByte(f, pos, Marks(s), 1);
    AtByte(f, pos, Marks(s), 2);
  }

  lemma FourParts(f: seq<Byte>, at: nat, a: seq<Byte>, b: seq<Byte>, c: seq<Byte>, d: seq<Byte>)
    requires At(f, at, a + (b + (c + d)))
    ensures At(f, at, a) && At(f, at + |a|, b) && At(f, at + |a| + |b|, c) && At(f, at + |a| + |b| + |c|, d)
  {
    AtParts(f, at, a, b + (c + d));
    AtParts(f, at + |a|, b, c + d);
    AtParts(f, at + |a| + |b|, c, d);
  }

  /** Where the parts of a source's record stand, and what its three middle bytes say. */
  lemma RecordParts(f: seq<Byte>, start: nat, s: Source)
    requires At(f, start, SourceRecord(s)) && SourceFits(s)
    ensures At(f, start, Str(s.name)) && At(f, start + |Str(s.name)|, Str(s.publisher))
    ensures var pos := start + |Str(s.name)| + |Str(s.publisher)|;
            && At(f, pos, Marks(s)) && At(f, pos + 3, Concat(Strings(s.derivedFrom)))
            && pos + 3 + |Concat(Strings(s.derivedFrom))| == start + |SourceRecord(s)|
  {
    FourParts(f, start, Str(s.name), Str(s.publisher), Marks(s), Concat(Strings(s.derivedFrom)));
  }

  /** One source's record, whose trust level is looked at before what it derives from. */
  method ReadSource(f: seq<Byte>, start: nat, ghost s: Source) returns (r: Result<Source, OpenError>, pos: nat)
    requires At(f, start, SourceRecord(s)) && SourceFits(s)
    ensures s.trust < |TRUST_LEVELS| ==> r == Ok(s) && pos == start + |SourceRecord(s)|
    ensures s.trust >= |TRUST_LEVELS| ==> r == Err(UnknownTrust(s.name, s.trust))
  {
    RecordParts(f, start, s);
    var name, publisher;
    name, pos := ReadString(f, start, s.name);
    publisher, pos := ReadString(f, pos, s.publisher);
    MarksBack(f, pos, s);
    var trust, flags, nDerived := f[pos], f[pos + 1], f[pos + 2];
    if trust >= |TRUST_LEVELS| { return Err(UnknownTrust(name, trust)), pos; }
    var derivedFrom;
    derivedFrom, pos := ReadNames(f, pos + 3, nDerived, s.derivedFrom);
    r := Ok(Source(name, publisher, trust, flags % 2 == 1, derivedFrom));
  }

  lemma RecordAt(f: seq<Byte>, start: nat, srcs: seq<Source>, i: nat)
    requires At(f, start, Concat(Records(srcs))) && i < |srcs|
    ensures At(f, start + Offset(Records(srcs), i), SourceRecord(srcs[i]))
    ensures Offset(Records(srcs), i + 1) == Offset(Records(srcs), i) + |SourceRecord(srcs[i])|
  {
    PartAt(f, start, Records(srcs), i);
    OffsetNext(Records(srcs), i);
  }

  predicate NamesUnknown(e: OpenError, srcs: seq<Source>) {
    e.UnknownTrust? && exists s <- srcs :: s.name == e.source && s.trust == e.trust && s.trust >= |TRUST_LEVELS|
  }

  /** The source table, unless a source's trust level is not one of the format's. */
  method ReadSources(f: seq<Byte>, start: nat, count: nat, ghost srcs: seq<Source>)
    returns (r: Result<seq<Source>, OpenError>, pos: nat)
    requires At(f, start, Concat(Records(srcs))) && count == |srcs|
    requires forall i | 0 <= i < |srcs| :: SourceFits(srcs[i])
    ensures r.Ok? <==> Known(srcs)
    ensures r.Ok? ==> r.value == srcs && pos == start + |Concat(Records(srcs))|
    ensures r.Err? ==> NamesUnknown(r.error, srcs)
  {
    var read := [];
    pos := start;
    for i := 0 to count
      invariant read == srcs[..i] && pos == start + Offset(Records(srcs), i)
      invariant Known(srcs[..i])
    {
      RecordAt(f, start, srcs, i);
      var source;
      source, pos := ReadSource(f, pos, srcs[i]);
      if source.Err? {
        assert srcs[i] in srcs;
        return Err(source.error), pos;
      }
      read := read + [source.value];
    }
    OffsetAll(Records(srcs));
    assert srcs[..count] == srcs;
    r := Ok(read);
  }

  /** One source's claim. */
  method ReadClaim(f: seq<Byte>, pos: nat) returns (claim: Option<Claim>)
    ensures claim == ClaimAt(f, pos)
  {
    if pos + 4 > |f| { return None; }
    var src, n := Read16(f, pos), Read16(f, pos + 2);
    if pos + 4 + 2 * n > |f| { return None; }
    var ids := [];
    for i := 0 to n
      invariant |ids| == i && forall j | 0 <= j < i :: ids[j] == Read16(f, pos + 4 + 2 * j)
    {
      ids := ids + [Read16(f, pos + 4 + 2 * i)];
    }
    assert ids == Numbers(f, pos + 4, n);
    claim := Some(Claim(src, ids));
  }

  /** Its ids replaced by what they stand for. */
  method NamePairs(claim: Claim, categories: seq<Text>, sources: seq<Source>) returns (pairs: Option<Claims>)
    ensures pairs == PairsOf(claim, categories, sources)
  {
    if claim.src >= |sources| { return None; }
    var source, named := sources[claim.src], [];
    for i := 0 to |claim.cats|
      invariant |named| == i
      invariant forall j | 0 <= j < i :: claim.cats[j] < |categories| && named[j] == (source, categories[claim.cats[j]])
    {
      if claim.cats[i] >= |categories| { return None; }
      named := named + [(source, categories[claim.cats[i]])];
    }
    assert PairsOf(claim, categories, sources).Some? ==> named == PairsOf(claim, categories, sources).value;
    pairs := Some(named);
  }

  /** The (source, category) pairs of one claim set. */
  method ReadClaims(f: seq<Byte>, start: nat, categories: seq<Text>, sources: seq<Source>)
    returns (entry: Option<Claims>)
    ensures entry == SetAt(f, start, categories, sources)
  {
    if start + 2 > |f| { return None; }
    var n := Read16(f, start);
    var pos, claims := start + 2, [];
    PrependNone(ClaimsAt(f, pos, n, categories, sources));
    for i := 0 to n
      invariant pos >= 0
      invariant SetAt(f, start, categories, sources) == Prepend(claims, ClaimsAt(f, pos, n - i, categories, sources))
    {
      var claim := ReadClaim(f, pos);
      if claim.None? { return None; }
      var pairs := NamePairs(claim.value, categories, sources);
      if pairs.None? { return None; }
      pos := pos + 4 + 2 * |claim.value.cats|;
      PrependTwice(claims, pairs.value, ClaimsAt(f, pos, n - (i + 1), categories, sources));
      claims := claims + pairs.value;
    }
    assert claims + [] == claims;
    entry := Some(claims);
  }

  lemma PrependNone(rest: Option<Claims>)
    ensures Prepend([], rest) == rest
  {
    if rest.Some? { assert [] + rest.value == rest.value; }
  }

  lemma PrependTwice(a: Claims, b: Claims, rest: Option<Claims>)
    ensures Prepend(a, Prepend(b, rest)) == Prepend(a + b, rest)
  {
    if rest.Some? { assert a + (b + rest.value) == (a + b) + rest.value; }
  }

  // -- where things are found -----------------------------------------------------

  /** The numbers of the header are read back. */
  lemma HeaderBack(f: seq<Byte>, im: Image)
    requires Fits(im) && At(f, 0, Header(im))
    ensures HEADER_SIZE <= |f| && f[..8] == MAGIC
    ensures Read64(f, 8) == im.builtAt && Read32(f, 16) == |im.rows| && Read32(f, 20) == |im.attrs|
    ensures Read16(f, 24) == |im.cats| && Read16(f, 26) == |im.srcs|
  {
    var ends := U16(|im.cats|) + U16(|im.srcs|);
    AtParts(f, 0, MAGIC, U64(im.builtAt) + (U32(|im.rows|) + (U32(|im.attrs|) + ends)));
    AtParts(f, 8, U64(im.builtAt), U32(|im.rows|) + (U32(|im.attrs|) + ends));
    AtParts(f, 16, U32(|im.rows|), U32(|im.attrs|) + ends);
    AtParts(f, 20, U32(|im.attrs|), ends);
    AtParts(f, 24, U16(|im.cats|), U16(|im.srcs|));
    Back64(f, 8, im.builtAt);
    Back32(f, 16, |im.rows|);
    Back32(f, 20, |im.attrs|);
    Back16(f, 24, |im.cats|);
    Back16(f, 26, |im.srcs|);
  }

  /** A claim set stands where its offset says. */
  lemma AttrAt(f: seq<Byte>, offsets: nat, table: nat, attrs: seq<Attr>, a: nat)
    requires At(f, offsets, Concat(Words(Offsets(AttrParts(attrs))))) && At(f, table, Concat(AttrParts(attrs)))
    requires |Concat(AttrParts(attrs))| < K32 && a < |attrs|
    ensures AttrSpan(f, offsets, table, a, attrs[a])
  {
    var parts := AttrParts(attrs);
    OffsetAt(f, offsets, parts, a);
    PartAt(f, table, parts, a);
    assert parts[a] == AttrBytes(attrs[a]);
  }

  /** A stored name lies between its offset and the next. */
  lemma NameAt(f: seq<Byte>, offsets: nat, blob: nat, rows: seq<Row>, i: nat)
    requires At(f, offsets, Concat(Words(Offsets(RowNames(rows))))) && At(f, blob, Concat(RowNames(rows)))
    requires |Concat(RowNames(rows))| < K32 && i < |rows|
    ensures NameSpan(f, offsets, blob, i, rows[i].name)
  {
    OffsetAt(f, offsets, RowNames(rows), i);
    OffsetAt(f, offsets, RowNames(rows), i + 1);
    PartAt(f, blob, RowNames(rows), i);
    OffsetNext(RowNames(rows), i);
  }

  lemma RowAttrAt(f: seq<Byte>, words: nat, rows: seq<Row>, i: nat)
    requires At(f, words, Concat(Words(RowAttrs(rows)))) && i < |rows| && rows[i].attr < K32
    ensures WordSpan(f, words, i, rows[i].attr)
  {
    WordAt(f, words, RowAttrs(rows), i);
  }

  lemma WholeHolds(f: seq<Byte>, im: Image, at: Places)
    requires Fits(im) && Standing(f, im, at)
    ensures Holds(f, im, at.attrOffsets, at.attrs, at.offsets, at.rowAttrs, at.blob)
  {
    forall a | 0 <= a < |im.attrs| ensures AttrSpan(f, at.attrOffsets, at.attrs, a, im.attrs[a]) {
      AttrAt(f, at.attrOffsets, at.attrs, im.attrs, a);
    }
    forall i | 0 <= i < |im.rows| ensures NameSpan(f, at.offsets, at.blob, i, im.rows[i].name) {
      NameAt(f, at.offsets, at.blob, im.rows, i);
    }
    forall i | 0 <= i < |im.rows| ensures WordSpan(f, at.rowAttrs, i, im.rows[i].attr) {
      RowAttrAt(f, at.rowAttrs, im.rows, i);
    }
  }

  /** The category and source tables, and where they end. */
  method ReadNamed(f: seq<Byte>, nCats: nat, nSrcs: nat, ghost im: Image, ghost at: Places)
    returns (cats: seq<Text>, sources: Result<seq<Source>, OpenError>, pos: nat)
    requires Fits(im) && Standing(f, im, at) && nCats == |im.cats| && nSrcs == |im.srcs|
    ensures cats == im.cats && (sources.Ok? <==> Known(im.srcs))
    ensures if sources.Ok? then sources.value == im.srcs && pos == at.attrOffsets
            else NamesUnknown(sources.error, im.srcs)
  {
    cats, pos := ReadNames(f, HEADER_SIZE, nCats, im.cats);
    sources, pos := ReadSources(f, pos, nSrcs, im.srcs);
  }

  /** Where the sections after the source table start. */
  method FindSections(f: seq<Byte>, start: nat, nDomains: nat, nAttrs: nat, ghost im: Image, ghost at: Places)
    returns (attrOffsets: nat, attrs: nat, offsets: nat, rowAttrs: nat, blob: nat)
    requires Fits(im) && Standing(f, im, at) && start == at.attrOffsets
    requires nDomains == |im.rows| && nAttrs == |im.attrs|
    ensures attrOffsets == at.attrOffsets && attrs == at.attrs && offsets == at.offsets
    ensures rowAttrs == at.rowAttrs && blob == at.blob
  {
    OffsetAt(f, start, AttrParts(im.attrs), nAttrs);
    OffsetAll(AttrParts(im.attrs));
    attrOffsets := start;
    attrs := start + 4 * (nAttrs + 1);
    offsets := attrs + Read32(f, attrOffsets + 4 * nAttrs);
    rowAttrs := offsets + 4 * (nDomains + 1);
    blob := rowAttrs + 4 * nDomains;
  }

  /** The tables of a file, all read. */
  ghost function TablesIn(im: Image): Tables {
    var at := PlacesOf(im);
    Tables(im.builtAt, |im.rows|, im.cats, im.srcs, at.attrOffsets, at.attrs, at.offsets, at.rowAttrs, at.blob)
  }

  /** The tables of a file, as far as they can be read. */
  method ReadTables(f: seq<Byte>, ghost im: Image)
    returns (builtAt: nat, nDomains: nat, categories: seq<Text>, r: Result<Tables, OpenError>)
    requires Fits(im) && f == Encode(im)
    ensures builtAt == im.builtAt && nDomains == |im.rows| && categories == im.cats && (r.Ok? <==> Known(im.srcs))
    ensures if r.Ok? then r.value == TablesIn(im) else NamesUnknown(r.error, im.srcs)
  {
    Stands(im);
    ghost var at := PlacesOf(im);
    HeaderBack(f, im);
    builtAt, nDomains := Read64(f, 8), Read32(f, 16);
    var sources, pos;
    categories, sources, pos := ReadNamed(f, Read16(f, 24), Read16(f, 26), im, at);
    if sources.Err? { return builtAt, nDomains, categories, Err(sources.error); }
    var attrOffsets, attrs, offsets, rowAttrs, blob := FindSections(f, pos, nDomains, Read32(f, 20), im, at);
    r := Ok(Tables(builtAt, nDomains, categories, sources.value, attrOffsets, attrs, offsets, rowAttrs, blob));
  }

  /** A file with its own tables is whole. */
  lemma OwnTables(im: Image)
    requires Fits(im)
    ensures Whole(Reader(Some(Encode(im)), TablesIn(im), map[]), im)
  {
    Stands(im);
    WholeHolds(Encode(im), im, PlacesOf(im));
  }

  // -- the index ------------------------------------------------------------------

  predicate Prefixed(host: Text) {
    |host| >= 4 && host[..4] == WWW + [DOT]
  }

  /** The same site with or without its www label. */
  function WwwAlias(host: Text): Text {
    if Prefixed(host) then host[4..] else WWW + [DOT] + host
  }

  function Dots(s: Text): nat {
    if s == [] then 0 else (if s[0] == DOT then 1 else 0) + Dots(s[1..])
  }

  lemma {:induction false} DotsOfLabels(s: Text)
    ensures Dots(s) + 1 == |Split(s)|
  {
    if s != [] { DotsOfLabels(s[1..]); }
  }

  /** The key of the entry covering the name these labels spell and all below it. */
  function Subtree(labels: seq<Text>): Text
    requires |labels| > 0
  {
    [STAR, DOT] + Join(labels)
  }

  /** How many labels a key must have for its entry to speak for the host. */
  function Floor(boundary: Option<Text>): nat {
    if boundary.Some? && boundary.value != [] then |Split(boundary.value)| else 1
  }

  function SubtreeProbes(labels: seq<Text>, floor: nat, n: nat): (probes: seq<(Text, bool)>)
    requires n <= |labels|
    ensures |probes| == n
    ensures forall i | 0 <= i < n :: probes[i] == (Subtree(labels[i..]), |labels| - i >= floor)
  {
    if n == 0 then []
    else SubtreeProbes(labels, floor, n - 1) + [(Subtree(labels[n - 1..]), |labels| - (n - 1) >= floor)]
  }

  /** The keys asked for a host, and whether each is its owner's. */
  function Probes(host: Text, boundary: Option<Text>): (probes: seq<(Text, bool)>)
    ensures |probes| == 2 + |Split(host)|
  {
    var labels := Split(host);
    [(host, true), (WwwAlias(host), Dots(WwwAlias(host)) + 1 >= Floor(boundary))]
    + SubtreeProbes(labels, Floor(boundary), |labels|)
  }

  /** The claims of one key that count: all of an owner's, only local ones of another's. */
  function Kept(key: Text, owned: bool, claims: Claims): seq<(Text, Source, Text)> {
    if claims == [] then []
    else
      var n := |claims| - 1;
      var (source, category) := claims[n];
      Kept(key, owned, claims[..n]) + if owned || source.local then [(key, source, category)] else []
  }

  /** The claims of one key that count. */
  method Keep(key: Text, owned: bool, claims: Claims) returns (kept: seq<(Text, Source, Text)>)
    ensures kept == Kept(key, owned, claims)
  {
    kept := [];
    for j := 0 to |claims|
      invariant kept == Kept(key, owned, claims[..j])
    {
      var (source, category) := claims[j];
      assert claims[..j + 1][..j] == claims[..j];
      if owned || source.local { kept := kept + [(key, source, category)]; }
    }
    assert claims[..|claims|] == claims;
  }

  /** The keys to ask for, the most specific first. */
  method ProbesFor(host: Text, boundary: Option<Text>) returns (probes: seq<(Text, bool)>)
    ensures probes == Probes(host, boundary)
  {
    var labels := Split(host);
    var floor := if boundary.Some? && boundary.value != [] then |Split(boundary.value)| else 1;
    var alias := WwwAlias(host);
    probes := [(host, true), (alias, Dots(alias) + 1 >= floor)];
    ghost var names := probes;
    for i := 0 to |labels|
      invariant probes == names + SubtreeProbes(labels, floor, i)
    {
      ghost var next := (Subtree(labels[i..]), |labels| - i >= floor);
      assert SubtreeProbes(labels, floor, i + 1) == SubtreeProbes(labels, floor, i) + [next];
      probes := probes + [([STAR, DOT] + Join(labels[i..]), |labels| - i >= floor)];
    }
  }

  function Answers(im: Image, probes: seq<(Text, bool)>): seq<(Text, Source, Text)>
    requires Fits(im)
  {
    if probes == [] then []
    else
      var n := |probes| - 1;
      Answers(im, probes[..n]) + Kept(probes[n].0, probes[n].1, Lookup(im, probes[n].0))
  }

  /** Every claim that applies to a host: of the host itself, its www alias,
      then the subtree keys of the host and each ancestor. */
  function Matched(im: Image, host: Text, boundary: Option<Text>): seq<(Text, Source, Text)>
    requires Fits(im)
  {
    if host == [] then [] else Answers(im, Probes(host, boundary))
  }

  // -- what a reader answers, whatever it has open ------------------------------------

  /** The claims that count of every key asked for, in order; an exception at one is an exception of all. */
  function AnswersOf(r: Reader, probes: seq<(Text, bool)>): Option<seq<(Text, Source, Text)>> {
    if probes == [] then Some([])
    else
      var n := |probes| - 1;
      var front, claims := AnswersOf(r, probes[..n]), r.ClaimsFor(probes[n].0);
      if front.None? || claims.None? then None
      else Some(front.value + Kept(probes[n].0, probes[n].1, claims.value))
  }

  function Heard(r: Reader, host: Text, boundary: Option<Text>): Option<seq<(Text, Source, Text)>> {
    if host == [] then Some([]) else AnswersOf(r, Probes(host, boundary))
  }

  lemma {:induction false} AnswersBack(r: Reader, im: Image, probes: seq<(Text, bool)>)
    requires Whole(r, im)
    ensures AnswersOf(r, probes) == Some(Answers(im, probes))
  {
    if probes != [] {
      var n := |probes| - 1;
      AnswersBack(r, im, probes[..n]);
      ClaimsForBack(r, im, probes[n].0);
    }
  }

  /** With the tables and the bytes of one file, every lookup answers what that file says. */
  lemma HeardBack(r: Reader, im: Image, host: Text, boundary: Option<Text>)
    requires Whole(r, im)
    ensures Heard(r, host, boundary) == Some(Matched(im, host, boundary))
  {
    if host != [] { AnswersBack(r, im, Probes(host, boundary)); }
  }

  /** The first keys of the file with their claims. */
  function Listing(im: Image, n: nat): (entries: seq<(Text, Claims)>)
    requires Fits(im) && n <= |im.rows|
    ensures |entries| == n
    ensures forall i | 0 <= i < n :: entries[i] == (ReverseLabels(im.rows[i].name), ClaimsOfRow(im, i))
  {
    if n == 0 then [] else Listing(im, n - 1) + [(ReverseLabels(im.rows[n - 1].name), ClaimsOfRow(im, n - 1))]
  }

  lemma ListingNext(im: Image, i: nat, entries: seq<(Text, Claims)>, name: Text, claims: Claims)
    requires Fits(im) && i < |im.rows| && entries == Listing(im, i)
    requires name == im.rows[i].name && claims == ClaimsOfRow(im, i)
    ensures entries + [(ReverseLabels(name), claims)] == Listing(im, i + 1)
  {
  }

  /** An identity of a file on disk and what a process opening it would read. */
  datatype Disk = Disk(identity: nat, content: seq<Byte>)

  /** The file starts as this format's do. */
  predicate Ours(content: seq<Byte>) {
    |content| >= HEADER_SIZE && content[..8] == MAGIC
  }

  /** What was decoded is what decoding gives, all that came from an earlier file with it. */
  ghost predicate Decoded(r: Reader, memo: map<nat, Claims>) {
    r.base.Keys <= memo.Keys && forall a <- memo :: r.Decode(a) == Some(memo[a])
  }

  ghost predicate Remembered(r: Reader, memo: map<Text, Claims>) {
    |memo| <= CLAIMS_MEMO_MAX && forall key <- memo :: r.ClaimsFor(key) == Some(memo[key])
  }

  lemma RememberOne(r: Reader, memo: map<Text, Claims>, key: Text, claims: Claims)
    requires Remembered(r, memo) && |memo| < CLAIMS_MEMO_MAX && r.ClaimsFor(key) == Some(claims)
    ensures Remembered(r, memo[key := claims])
  {
  }

  lemma DecodeOne(r: Reader, memo: map<nat, Claims>, a: nat, entry: Claims)
    requires Decoded(r, memo) && r.Decode(a) == Some(entry)
    ensures Decoded(r, memo[a := entry])
  {
  }

  lemma WholeIsOurs(im: Image)
    requires Fits(im)
    ensures Ours(Encode(im))
  {
    Stands(im);
    HeaderBack(Encode(im), im);
  }

  /** Why a file is not opened. */
  predicate Refused(e: OpenError, content: seq<Byte>, srcs: seq<Source>) {
    if |content| < HEADER_SIZE then e == TooShort
    else if content[..8] == MAGIC then NamesUnknown(e, srcs)
    else if content[..5] == MAGIC[..5] then e == OlderFormat(content[7])
    else e == NotAnIndex
  }

  predicate Opens(content: seq<Byte>, im: Image) {
    Ours(content) && Known(im.srcs)
  }

  /** What a reader goes by once it has tried to open a file. One with an
      unknown trust level stays open, with the header and the categories of
      its own and everything else of the file before; a file shorter than a
      header stays open too. */
  ghost function After(before: Reader, content: seq<Byte>, im: Image): Reader {
    if Opens(content, im) then Reader(Some(content), TablesIn(im), map[])
    else if Ours(content) then
      var tables := before.tables.(builtAt := im.builtAt, nDomains := |im.rows|, categories := im.cats);
      Reader(Some(content), tables, before.base)
    else Reader(if 0 < |content| < HEADER_SIZE then Some(content) else None, before.tables, before.base)
  }

  /** Where binary search over these names ends. */
  method FindPlace(names: nat -> Option<Text>, target: Text, n: nat) returns (end: Option<nat>)
    ensures end == Search(names, target, 0, n)
  {
    ghost var goal := Search(names, target, 0, n);
    var lo, hi := 0, n;
    while lo < hi
      invariant 0 <= lo <= hi
      invariant Search(names, target, lo, hi) == goal
    {
      var mid := (lo + hi) / 2;
      var name := names(mid);
      if name.None? { return None; }
      var below := Less(name.value, target);
      SearchOnce(names, target, lo, hi, name.value, below);
      if below { lo := mid + 1; } else { hi := mid; }
    }
    end := Some(lo);
  }

  lemma SearchOnce(names: nat -> Option<Text>, target: Text, lo: nat, hi: nat, name: Text, below: bool)
    requires lo < hi && names((lo + hi) / 2) == Some(name) && below == Less(name, target)
    ensures var mid := (lo + hi) / 2;
            Search(names, target, lo, hi)
            == if below then Search(names, target, mid + 1, hi) else Search(names, target, lo, mid)
  {
  }

  class DomainIndex {
    var bytes: Option<seq<Byte>>
    var identity: nat
    var tables: Tables
    var attrMemo: map<nat, Claims>
    var claimsMemo: map<Text, Claims>
    /** The claim sets decoded before these bytes were opened. */
    ghost var base: map<nat, Claims>

    ghost function State(): Reader
      reads this`bytes, this`tables, this`base
    {
      Reader(bytes, tables, base)
    }

    /** What is remembered is what reading it would give now, or was decoded before these bytes were opened. */
    ghost predicate Valid()
      reads this
    {
      Known(tables.sources) && Decoded(State(), attrMemo) && Remembered(State(), claimsMemo)
    }

    constructor ()
      ensures Valid() && bytes == None && attrMemo == base == map[]
    {
      bytes, tables := None, Tables(0, 0, [], [], 0, 0, 0, 0, 0);
      claimsMemo, attrMemo, base := map[], map[], map[];
    }

    method Close()
      requires Valid()
      modifies this`claimsMemo, this`bytes, this`base
      ensures Valid() && bytes == None && base == attrMemo && claimsMemo == map[]
    {
      claimsMemo := map[];
      bytes, base := None, attrMemo;
    }

    /** Opens a file. One that starts as this format's was written whole by the builder. */
    method Open(disk: Disk, ghost im: Image) returns (r: Result<nat, OpenError>)
      requires Ours(disk.content) ==> Fits(im) && disk.content == Encode(im)
      requires Valid() && bytes == None && base == attrMemo
      modifies this
      ensures Valid() && identity == disk.identity && base == attrMemo && claimsMemo == map[]
      ensures State() == After(old(State()), disk.content, im)
      ensures r == if Opens(disk.content, im) then Ok(im.builtAt) else r
      ensures r.Ok? <==> Opens(disk.content, im)
      ensures r.Err? ==> Refused(r.error, disk.content, im.srcs)
    {
      claimsMemo := map[];
      identity := disk.identity;
      var f := disk.content;
      if f == [] { return Err(TooShort); }
      bytes := Some(f);
      if |f| < HEADER_SIZE { return Err(TooShort); }
      if f[..8] != MAGIC {
        Close();
        if f[..5] == MAGIC[..5] { return Err(OlderFormat(f[7])); }
        return Err(NotAnIndex);
      }
      r := ReadIn(f, im);
    }

    /** Reads the tables in, as far as they can be read. */
    method ReadIn(f: seq<Byte>, ghost im: Image) returns (r: Result<nat, OpenError>)
      requires Fits(im) && f == Encode(im) && bytes == Some(f)
      requires Valid() && base == attrMemo && claimsMemo == map[]
      modifies this`tables, this`attrMemo, this`base
      ensures Valid() && base == attrMemo
      ensures Known(im.srcs) ==> r == Ok(im.builtAt) && tables == TablesIn(im) && base == map[]
      ensures !Known(im.srcs) ==>
        && r.Err? && NamesUnknown(r.error, im.srcs) && base == old(base)
        && tables == old(tables).(builtAt := im.builtAt, nDomains := |im.rows|, categories := im.cats)
    {
      var builtAt, nDomains, categories, read := ReadTables(f, im);
      tables := tables.(builtAt := builtAt, nDomains := nDomains, categories := categories);
      if read.Err? { return Err(read.error); }
      tables, attrMemo, base := read.value, map[], map[];
      r := Ok(builtAt);
    }

    /** Opens the file anew when another one has taken its place. A failed try is not made again for the same file. */
    method ReloadIfChanged(disk: Option<Disk>, ghost im: Image) returns (r: Result<bool, OpenError>)
      requires Valid()
      requires disk.Some? && Ours(disk.value.content) ==> Fits(im) && disk.value.content == Encode(im)
      modifies this
      ensures Valid()
      ensures disk.None? || disk.value.identity == old(identity) ==>
        r == Ok(false) && State() == old(State()) && identity == old(identity)
        && attrMemo == old(attrMemo) && claimsMemo == old(claimsMemo)
      ensures disk.Some? && disk.value.identity != old(identity) ==>
        && State() == After(old(State()).(base := old(attrMemo)), disk.value.content, im)
        && identity == disk.value.identity && base == attrMemo && claimsMemo == map[]
        && (if Opens(disk.value.content, im) then r == Ok(true)
            else r.Err? && Refused(r.error, disk.value.content, im.srcs))
    {
      if disk.None? { return Ok(false); }
      if disk.value.identity == identity { return Ok(false); }
      Close();
      var outcome := Open(disk.value, im);
      r := if outcome.Ok? then Ok(true) else Err(outcome.error);
    }

    /** The stored name of a row. */
    method DomainAt(i: nat) returns (name: Option<Text>)
      ensures name == State().NameOf(i)
    {
      var at := tables.offsets + 4 * i;
      if bytes.None? || at + 8 > |bytes.value| { return None; }
      var start, end := Read32(bytes.value, at), Read32(bytes.value, at + 4);
      name := Some(Slice(bytes.value, tables.blob + start, tables.blob + end));
    }

    /** The row of a stored name, by binary search. */
    method Find(target: Text) returns (found: Option<Option<nat>>)
      ensures found == State().RowOf(target)
    {
      var lo := FindPlace(NamesIn(bytes, tables), target, tables.nDomains);
      if lo.None? { return None; }
      if lo.value >= tables.nDomains { return Some(None); }
      var name := DomainAt(lo.value);
      found := if name.None? then None else Some(if name.value == target then Some(lo.value) else None);
    }

    method DecodeFromFile(a: nat) returns (entry: Option<Claims>)
      ensures a !in base ==> entry == State().Decode(a)
    {
      var start := WordAt(tables.attrOffsets + 4 * a);
      if start.None? { return None; }
      entry := ReadClaims(bytes.value, tables.attrTable + start.value, tables.categories, tables.sources);
    }

    /** The (source, category) pairs of one interned claim set. */
    method DecodeAttr(a: nat) returns (entry: Option<Claims>)
      requires Valid()
      modifies this`attrMemo
      ensures Valid()
      ensures entry == State().Decode(a)
    {
      if a in attrMemo { return Some(attrMemo[a]); }
      entry := DecodeFromFile(a);
      if entry.Some? {
        DecodeOne(State(), attrMemo, a, entry.value);
        attrMemo := attrMemo[a := entry.value];
      }
    }

    /** A number of the open file. */
    method WordAt(pos: nat) returns (n: Option<nat>)
      ensures n == State().Word(pos)
    {
      n := if bytes.None? || pos + 4 > |bytes.value| then None else Some(Read32(bytes.value, pos));
    }

    /** The claims of a row. */
    method RowClaims(i: nat) returns (claims: Option<Claims>)
      requires Valid()
      modifies this`attrMemo
      ensures Valid()
      ensures claims == State().DecodeRow(i)
    {
      ghost var r := State();
      var a := WordAt(tables.attrIndex + 4 * i);
      if a.None? { return None; }
      claims := DecodeAttr(a.value);
      assert State() == r && claims == r.Decode(a.value);
    }

    /** The claims of a key: those of its row, or none, remembered from the last time. */
    method ClaimsFor(key: Text) returns (claims: Option<Claims>)
      requires Valid()
      modifies this`attrMemo, this`claimsMemo
      ensures Valid()
      ensures claims == State().ClaimsFor(key)
    {
      if key in claimsMemo { return Some(claimsMemo[key]); }
      var found := Find(ReverseLabels(key));
      if found.None? { return None; }
      if found.value.None? { claims := Some([]); }
      else {
        claims := RowClaims(found.value.value);
        if claims.None? { return None; }
      }
      Remember(key, claims.value);
    }

    /** Remembers a key's claims, forgetting all others when the memo is full. */
    method Remember(key: Text, claims: Claims)
      requires Valid() && State().ClaimsFor(key) == Some(claims)
      modifies this`claimsMemo
      ensures Valid()
      ensures key in claimsMemo && claimsMemo[key] == claims
      ensures forall k <- claimsMemo :: k == key || (k in old(claimsMemo) && claimsMemo[k] == old(claimsMemo)[k])
    {
      if |claimsMemo| >= CLAIMS_MEMO_MAX { claimsMemo := map[]; }
      RememberOne(State(), claimsMemo, key, claims);
      claimsMemo := claimsMemo[key := claims];
    }

    /** Every stored key with its claims, in the order of the file. */
    method Entries(ghost im: Image) returns (entries: seq<(Text, Claims)>)
      requires Valid() && Whole(State(), im)
      modifies this`attrMemo
      ensures Valid()
      ensures entries == Listing(im, |im.rows|)
    {
      entries := [];
      for i := 0 to tables.nDomains
        invariant Valid()
        invariant entries == Listing(im, i)
      {
        NameBack(State(), im, i);
        RowBack(State(), im, i);
        var name := DomainAt(i);
        var claims := RowClaims(i);
        ListingNext(im, i, entries, name.value, claims.value);
        entries := entries + [(ReverseLabels(name.value), claims.value)];
      }
    }

    /** Every claim that applies to a host, or none where the bytes open cannot be read so. */
    method Match(host: Text, boundary: Option<Text>) returns (found: Option<seq<(Text, Source, Text)>>)
      requires Valid()
      modifies this`attrMemo, this`claimsMemo
      ensures Valid()
      ensures found == Heard(State(), host, boundary)
    {
      if host == [] { return Some([]); }
      var probes := ProbesFor(host, boundary);
      found := Ask(probes);
    }

    /** The claims that count of every key asked for, in order. */
    method Ask(probes: seq<(Text, bool)>) returns (found: Option<seq<(Text, Source, Text)>>)
      requires Valid()
      modifies this`attrMemo, this`claimsMemo
      ensures Valid()
      ensures found == AnswersOf(State(), probes)
    {
      var all := [];
      for i := 0 to |probes|
        invariant Valid()
        invariant AnswersOf(State(), probes[..i]) == Some(all)
      {
        var (key, owned) := probes[i];
        var claims := ClaimsFor(key);
        AnswersOfNext(State(), probes, i);
        if claims.None? {
          NoneAfter(State(), probes, i + 1);
          return None;
        }
        var kept := Keep(key, owned, claims.value);
        all := all + kept;
      }
      assert probes[..|probes|] == probes;
      found := Some(all);
    }
  }

  lemma AnswersOfNext(r: Reader, probes: seq<(Text, bool)>, i: nat)
    requires i < |probes|
    ensures var front, claims := AnswersOf(r, probes[..i]), r.ClaimsFor(probes[i].0);
            AnswersOf(r, probes[..i + 1])
            == if front.None? || claims.None? then None
               else Some(front.value + Kept(probes[i].0, probes[i].1, claims.value))
  {
    assert probes[..i + 1][..i] == probes[..i];
  }

  lemma {:induction false} NoneAfter(r: Reader, probes: seq<(Text, bool)>, i: nat)
    requires i <= |probes| && AnswersOf(r, probes[..i]) == None
    ensures AnswersOf(r, probes) == None
    decreases |probes| - i
  {
    if i == |probes| {
      assert probes[..i] == probes;
    } else {
      AnswersOfNext(r, probes, i);
      NoneAfter(r, probes, i + 1);
    }
  }
}
