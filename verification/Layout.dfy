/** The byte layout of an index file: what an image of one says, how it is
    written, and where in the file each part of it is found again. */
module Layout {
  import opened Names
  import opened Wrappers

  /** "TBIDX", two zero bytes and the format's number. */
  const MAGIC: Text := [84, 66, 73, 68, 88, 0, 0, 3]
  const HEADER_SIZE := 28

  /** Positions in this list are the format's trust levels. */
  const TRUST_LEVELS := ["low", "medium", "high"]
  const LOW: nat := 0
  const MEDIUM: nat := 1
  const HIGH: nat := 2

  /** One list file: `trust` is a position among the trust levels. */
  datatype Source = Source(name: Text, publisher: Text, trust: nat, local: bool, derivedFrom: seq<Text>)

  /** One source's categories for a name, all as positions in the file's tables. */
  datatype Claim = Claim(src: nat, cats: seq<nat>)

  type Attr = seq<Claim>

  datatype Row = Row(name: Text, attr: nat)

  /** Everything a file says. */
  datatype Image = Image(builtAt: nat, cats: seq<Text>, srcs: seq<Source>, attrs: seq<Attr>, rows: seq<Row>)

  // -- numbers ----------------------------------------------------------------

  const K16 := 0x1_0000
  const K32 := 0x1_0000_0000
  const K64 := 0x1_0000_0000_0000_0000

  function U16(n: nat): (r: seq<Byte>)
    ensures |r| == 2
  {
    [n % 256, n / 256 % 256]
  }

  function U32(n: nat): (r: seq<Byte>)
    ensures |r| == 4
  {
    U16(n % K16) + U16(n / K16)
  }

  function U64(n: nat): (r: seq<Byte>)
    ensures |r| == 8
  {
    U32(n % K32) + U32(n / K32)
  }

  function Read16(f: seq<Byte>, at: nat): (n: nat)
    requires at + 2 <= |f|
    ensures n < K16
  {
    f[at] as int + 256 * f[at + 1] as int
  }

  function Read32(f: seq<Byte>, at: nat): (n: nat)
    requires at + 4 <= |f|
    ensures n < K32
  {
    Read16(f, at) + K16 * Read16(f, at + 2)
  }

  function Read64(f: seq<Byte>, at: nat): nat
    requires at + 8 <= |f|
  {
    Read32(f, at) + K32 * Read32(f, at + 4)
  }

  /** These bytes stand at that position of the file. */
  predicate At(f: seq<Byte>, at: nat, bytes: seq<Byte>) {
    at + |bytes| <= |f| && f[at..at + |bytes|] == bytes
  }

  lemma AtByte(f: seq<Byte>, at: nat, bytes: seq<Byte>, i: nat)
    requires At(f, at, bytes) && i < |bytes|
    ensures f[at + i] == bytes[i]
  {
    assert f[at..at + |bytes|][i] == f[at + i];
  }

  lemma AtParts(f: seq<Byte>, at: nat, a: seq<Byte>, b: seq<Byte>)
    requires At(f, at, a + b)
    ensures At(f, at, a) && At(f, at + |a|, b)
  {
    var s := f[at..at + |a + b|];
    assert f[at..at + |a|] == s[..|a|] == a;
    assert f[at + |a|..at + |a| + |b|] == s[|a|..] == b;
  }

  lemma Back16(f: seq<Byte>, at: nat, n: nat)
    requires At(f, at, U16(n)) && n < K16
    ensures Read16(f, at) == n
  {
    AtByte(f, at, U16(n), 0);
    AtByte(f, at, U16(n), 1);
  }

  lemma Back32(f: seq<Byte>, at: nat, n: nat)
    requires At(f, at, U32(n)) && n < K32
    ensures Read32(f, at) == n
  {
    AtParts(f, at, U16(n % K16), U16(n / K16));
    Back16(f, at, n % K16);
    Back16(f, at + 2, n / K16);
  }

  lemma Back64(f: seq<Byte>, at: nat, n: nat)
    requires At(f, at, U64(n)) && n < K64
    ensures Read64(f, at) == n
  {
    AtParts(f, at, U32(n % K32), U32(n / K32));
    Back32(f, at, n % K32);
    Back32(f, at + 4, n / K32);
  }

  // -- parts one after another -------------------------------------------------

  /** How many bytes come before the part. */
  function Offset(parts: seq<seq<Byte>>, i: nat): nat
    requires i <= |parts|
  {
    |Concat(parts[..i])|
  }

  lemma OffsetNext(parts: seq<seq<Byte>>, i: nat)
    requires i < |parts|
    ensures Concat(parts[..i + 1]) == Concat(parts[..i]) + parts[i]
    ensures Offset(parts, i + 1) == Offset(parts, i) + |parts[i]|
  {
    assert parts[..i + 1][..i] == parts[..i];
  }

  lemma {:induction false} PartAt(f: seq<Byte>, at: nat, parts: seq<seq<Byte>>, i: nat)
    requires At(f, at, Concat(parts)) && i < |parts|
    ensures At(f, at + Offset(parts, i), parts[i])
  {
    var n := |parts| - 1;
    AtParts(f, at, Concat(parts[..n]), parts[n]);
    if i < n {
      PartAt(f, at, parts[..n], i);
      assert parts[..n][..i] == parts[..i];
    }
  }

  /** Parts of one size are found by multiplying. */
  lemma {:induction false} OffsetEven(parts: seq<seq<Byte>>, size: nat, i: nat)
    requires i <= |parts| && forall j | 0 <= j < |parts| :: |parts[j]| == size
    ensures Offset(parts, i) == size * i
  {
    if i > 0 {
      OffsetEven(parts, size, i - 1);
      OffsetNext(parts, i - 1);
    }
  }

  lemma {:induction false} OffsetGrows(parts: seq<seq<Byte>>, i: nat)
    requires i <= |parts|
    ensures Offset(parts, i) <= |Concat(parts)|
    decreases |parts| - i
  {
    if i < |parts| {
      OffsetNext(parts, i);
      OffsetGrows(parts, i + 1);
    } else {
      assert parts[..i] == parts;
    }
  }

  lemma OffsetAll(parts: seq<seq<Byte>>)
    ensures Offset(parts, |parts|) == |Concat(parts)|
  {
    assert parts[..|parts|] == parts;
  }

  // -- what is written ----------------------------------------------------------

  function Str(s: Text): seq<Byte> {
    U16(|s|) + s
  }

  function Strings(names: seq<Text>): (parts: seq<seq<Byte>>)
    ensures |parts| == |names|
  {
    seq(|names|, i requires 0 <= i < |names| => Str(names[i]))
  }

  function SourceRecord(s: Source): seq<Byte> {
    Str(s.name) + (Str(s.publisher)
                   + ([s.trust % 256, if s.local then 1 else 0, |s.derivedFrom| % 256]
                      + Concat(Strings(s.derivedFrom))))
  }

  function Records(srcs: seq<Source>): (parts: seq<seq<Byte>>)
    ensures |parts| == |srcs|
  {
    seq(|srcs|, i requires 0 <= i < |srcs| => SourceRecord(srcs[i]))
  }

  function Shorts(ns: seq<nat>): (parts: seq<seq<Byte>>)
    ensures |parts| == |ns|
  {
    seq(|ns|, i requires 0 <= i < |ns| => U16(ns[i]))
  }

  function Words(ns: seq<nat>): (parts: seq<seq<Byte>>)
    ensures |parts| == |ns|
  {
    seq(|ns|, i requires 0 <= i < |ns| => U32(ns[i]))
  }

  function ClaimBytes(c: Claim): seq<Byte> {
    U16(c.src) + (U16(|c.cats|) + Concat(Shorts(c.cats)))
  }

  function ClaimParts(attr: Attr): (parts: seq<seq<Byte>>)
    ensures |parts| == |attr|
  {
    seq(|attr|, i requires 0 <= i < |attr| => ClaimBytes(attr[i]))
  }

  function AttrBytes(attr: Attr): seq<Byte> {
    U16(|attr|) + Concat(ClaimParts(attr))
  }

  function AttrParts(attrs: seq<Attr>): (parts: seq<seq<Byte>>)
    ensures |parts| == |attrs|
  {
    seq(|attrs|, i requires 0 <= i < |attrs| => AttrBytes(attrs[i]))
  }

  function RowNames(rows: seq<Row>): (names: seq<Text>)
    ensures |names| == |rows|
  {
    seq(|rows|, i requires 0 <= i < |rows| => rows[i].name)
  }

  function RowAttrs(rows: seq<Row>): (attrs: seq<nat>)
    ensures |attrs| == |rows|
  {
    seq(|rows|, i requires 0 <= i < |rows| => rows[i].attr)
  }

  /** Where each part starts, and where the last one ends. */
  function Offsets(parts: seq<seq<Byte>>): (offsets: seq<nat>)
    ensures |offsets| == |parts| + 1
  {
    seq(|parts| + 1, i requires 0 <= i < |parts| + 1 => Offset(parts, i))
  }

  function Header(im: Image): seq<Byte> {
    MAGIC + (U64(im.builtAt) + (U32(|im.rows|) + (U32(|im.attrs|) + (U16(|im.cats|) + U16(|im.srcs|)))))
  }

  /** The eight sections of a file, in the order they are written. */
  function Sections(im: Image): (sections: seq<seq<Byte>>)
    ensures |sections| == 8
  {
    [Header(im), Concat(Strings(im.cats)), Concat(Records(im.srcs)),
     Concat(Words(Offsets(AttrParts(im.attrs)))), Concat(AttrParts(im.attrs)),
     Concat(Words(Offsets(RowNames(im.rows)))), Concat(Words(RowAttrs(im.rows))), Concat(RowNames(im.rows))]
  }

  const CATS := 1
  const SRCS := 2
  const ATTR_OFFSETS := 3
  const ATTRS := 4
  const OFFSETS := 5
  const ROW_ATTRS := 6
  const BLOB := 7

  /** The whole file. */
  function Encode(im: Image): seq<Byte> {
    Concat(Sections(im))
  }

  // -- what fits ----------------------------------------------------------------

  predicate StringFits(s: Text) {
    |s| < K16
  }

  predicate SourceFits(s: Source) {
    && StringFits(s.name) && StringFits(s.publisher)
    && s.trust < 256 && |s.derivedFrom| <= 0xFF && forall p <- s.derivedFrom :: StringFits(p)
  }

  predicate ClaimFits(c: Claim, cats: nat, srcs: nat) {
    c.src < srcs && |c.cats| < K16 && forall k <- c.cats :: k < cats
  }

  predicate AttrFits(attr: Attr, cats: nat, srcs: nat) {
    |attr| < K16 && forall i | 0 <= i < |attr| :: ClaimFits(attr[i], cats, srcs)
  }

  predicate Before(rows: seq<Row>, i: int, j: int)
    requires 0 <= i < |rows| && 0 <= j < |rows|
  {
    Less(rows[i].name, rows[j].name)
  }

  predicate Sorted(rows: seq<Row>) {
    forall i, j | 0 <= i < j < |rows| :: Before(rows, i, j)
  }

  /** Every trust level is one of the format's. */
  predicate Known(srcs: seq<Source>) {
    forall i | 0 <= i < |srcs| :: srcs[i].trust < |TRUST_LEVELS|
  }

  /** The image is one the format's integer widths can hold, with its rows in order. */
  predicate Fits(im: Image) {
    && im.builtAt < K64 && |im.rows| < K32 && |im.attrs| < K32 && |im.cats| < K16 && |im.srcs| < K16
    && (forall c <- im.cats :: StringFits(c))
    && (forall i | 0 <= i < |im.srcs| :: SourceFits(im.srcs[i]))
    && (forall i | 0 <= i < |im.attrs| :: AttrFits(im.attrs[i], |im.cats|, |im.srcs|))
    && (forall i | 0 <= i < |im.rows| :: im.rows[i].attr < |im.attrs|)
    && |Concat(AttrParts(im.attrs))| < K32 && |Concat(RowNames(im.rows))| < K32
    && Sorted(im.rows)
  }

  /** Where a section of the file starts. */
  function Place(im: Image, section: nat): nat
    requires section < 8
  {
    Offset(Sections(im), section)
  }

  /** Every section of a whole file stands at its place, the first at the start. */
  lemma SectionAt(im: Image, section: nat)
    requires section < 8
    ensures At(Encode(im), Place(im, section), Sections(im)[section]) && Place(im, 0) == 0
    ensures section < 7 ==> Place(im, section + 1) == Place(im, section) + |Sections(im)[section]|
  {
    assert At(Encode(im), 0, Encode(im));
    PartAt(Encode(im), 0, Sections(im), section);
    OffsetNext(Sections(im), section);
  }

  lemma WordsLength(ns: seq<nat>)
    ensures |Concat(Words(ns))| == 4 * |ns|
  {
    OffsetEven(Words(ns), 4, |ns|);
    assert Words(ns)[..|ns|] == Words(ns);
  }

  lemma WordAt(f: seq<Byte>, at: nat, ns: seq<nat>, i: nat)
    requires At(f, at, Concat(Words(ns))) && i < |ns| && ns[i] < K32
    ensures At(f, at + 4 * i, U32(ns[i])) && Read32(f, at + 4 * i) == ns[i]
  {
    PartAt(f, at, Words(ns), i);
    OffsetEven(Words(ns), 4, i);
    Back32(f, at + 4 * i, ns[i]);
  }

  /** A part's offset is read back from the table of offsets. */
  lemma OffsetAt(f: seq<Byte>, at: nat, parts: seq<seq<Byte>>, i: nat)
    requires At(f, at, Concat(Words(Offsets(parts)))) && i <= |parts| && |Concat(parts)| < K32
    ensures at + 4 * i + 4 <= |f| && Read32(f, at + 4 * i) == Offset(parts, i)
  {
    OffsetGrows(parts, i);
    WordAt(f, at, Offsets(parts), i);
  }

  /** Where the sections after the header start. */
  datatype Places = Places(cats: nat, srcs: nat, attrOffsets: nat, attrs: nat, offsets: nat, rowAttrs: nat, blob: nat)

  /** Every section of an image stands in the file, one after another. */
  predicate Standing(f: seq<Byte>, im: Image, at: Places) {
    && At(f, 0, Header(im)) && at.cats == HEADER_SIZE
    && At(f, at.cats, Concat(Strings(im.cats))) && at.srcs == at.cats + |Concat(Strings(im.cats))|
    && At(f, at.srcs, Concat(Records(im.srcs))) && at.attrOffsets == at.srcs + |Concat(Records(im.srcs))|
    && At(f, at.attrOffsets, Concat(Words(Offsets(AttrParts(im.attrs)))))
    && at.attrs == at.attrOffsets + 4 * (|im.attrs| + 1)
    && At(f, at.attrs, Concat(AttrParts(im.attrs))) && at.offsets == at.attrs + |Concat(AttrParts(im.attrs))|
    && At(f, at.offsets, Concat(Words(Offsets(RowNames(im.rows))))) && at.rowAttrs == at.offsets + 4 * (|im.rows| + 1)
    && At(f, at.rowAttrs, Concat(Words(RowAttrs(im.rows)))) && at.blob == at.rowAttrs + 4 * |im.rows|
    && At(f, at.blob, Concat(RowNames(im.rows)))
  }

  ghost function PlacesOf(im: Image): Places {
    Places(Place(im, CATS), Place(im, SRCS), Place(im, ATTR_OFFSETS), Place(im, ATTRS), Place(im, OFFSETS),
           Place(im, ROW_ATTRS), Place(im, BLOB))
  }

  lemma FirstSections(im: Image)
    ensures var f := Encode(im); var at := PlacesOf(im);
            && At(f, 0, Header(im)) && at.cats == HEADER_SIZE
            && At(f, at.cats, Concat(Strings(im.cats))) && at.srcs == at.cats + |Concat(Strings(im.cats))|
            && At(f, at.srcs, Concat(Records(im.srcs))) && at.attrOffsets == at.srcs + |Concat(Records(im.srcs))|
  {
    SectionAt(im, 0);
    SectionAt(im, CATS);
    SectionAt(im, SRCS);
  }

  lemma MiddleSections(im: Image)
    ensures var f := Encode(im); var at := PlacesOf(im);
            && At(f, at.attrOffsets, Concat(Words(Offsets(AttrParts(im.attrs)))))
            && at.attrs == at.attrOffsets + 4 * (|im.attrs| + 1)
            && At(f, at.attrs, Concat(AttrParts(im.attrs))) && at.offsets == at.attrs + |Concat(AttrParts(im.attrs))|
  {
    SectionAt(im, ATTR_OFFSETS);
    WordsLength(Offsets(AttrParts(im.attrs)));
    SectionAt(im, ATTRS);
  }

  lemma LastSections(im: Image)
    ensures var f := Encode(im); var at := PlacesOf(im);
            && At(f, at.offsets, Concat(Words(Offsets(RowNames(im.rows)))))
            && at.rowAttrs == at.offsets + 4 * (|im.rows| + 1)
            && At(f, at.rowAttrs, Concat(Words(RowAttrs(im.rows)))) && at.blob == at.rowAttrs + 4 * |im.rows|
            && At(f, at.blob, Concat(RowNames(im.rows)))
  {
    SectionAt(im, OFFSETS);
    WordsLength(Offsets(RowNames(im.rows)));
    SectionAt(im, ROW_ATTRS);
    WordsLength(RowAttrs(im.rows));
    SectionAt(im, BLOB);
  }

  /** A whole file holds its image's sections. */
  lemma Stands(im: Image)
    ensures Standing(Encode(im), im, PlacesOf(im))
  {
    FirstSections(im);
    MiddleSections(im);
    LastSections(im);
  }

  // -- what it means ------------------------------------------------------------

  /** The (source, category) pairs of one claim, in the order of the file. */
  function Pairs(im: Image, c: Claim): (pairs: seq<(Source, Text)>)
    requires ClaimFits(c, |im.cats|, |im.srcs|)
    ensures |pairs| == |c.cats|
  {
    seq(|c.cats|, i requires 0 <= i < |c.cats| => assert c.cats[i] in c.cats; (im.srcs[c.src], im.cats[c.cats[i]]))
  }

  function Expand(im: Image, attr: Attr): seq<(Source, Text)>
    requires forall i | 0 <= i < |attr| :: ClaimFits(attr[i], |im.cats|, |im.srcs|)
  {
    if attr == [] then [] else Expand(im, attr[..|attr| - 1]) + Pairs(im, attr[|attr| - 1])
  }

  function ClaimsOfRow(im: Image, i: nat): seq<(Source, Text)>
    requires Fits(im) && i < |im.rows|
  {
    Expand(im, im.attrs[im.rows[i].attr])
  }

  /** The row of a stored name. */
  predicate Stored(im: Image, name: Text, i: nat) {
    i < |im.rows| && im.rows[i].name == name
  }

  /** The last row of a name, looking at every one. */
  function Seek(rows: seq<Row>, name: Text): (found: Option<nat>)
    ensures found.Some? ==> found.value < |rows| && rows[found.value].name == name
    ensures found.None? ==> forall i | 0 <= i < |rows| :: rows[i].name != name
  {
    if rows == [] then None
    else if rows[|rows| - 1].name == name then Some(|rows| - 1)
    else Seek(rows[..|rows| - 1], name)
  }

  /** What the file says of a key, read without searching or remembering. */
  function Lookup(im: Image, key: Text): seq<(Source, Text)>
    requires Fits(im)
  {
    match Seek(im.rows, ReverseLabels(key))
    case None => []
    case Some(i) => ClaimsOfRow(im, i)
  }

  lemma LookupRow(im: Image, key: Text, i: nat)
    requires Fits(im) && Stored(im, ReverseLabels(key), i)
    ensures Lookup(im, key) == ClaimsOfRow(im, i)
  {
    var j := Seek(im.rows, ReverseLabels(key)).value;
    if i < j { assert Before(im.rows, i, j); LessOneWay(im.rows[i].name, im.rows[j].name); }
    if j < i { assert Before(im.rows, j, i); LessOneWay(im.rows[j].name, im.rows[i].name); }
  }

  // -- the format, byte for byte ------------------------------------------------------

  lemma OnePart<T>(part: seq<T>)
    ensures Concat([part]) == part
  {
    assert [part][..0] == [] && Concat([part][..0]) == [];
  }

  lemma TwoParts<T>(a: seq<T>, b: seq<T>)
    ensures Concat([a, b]) == a + b
  {
    OnePart(a);
    assert [a, b][..1] == [a];
  }

  lemma ThreeParts<T>(a: seq<T>, b: seq<T>, c: seq<T>)
    ensures Concat([a, b, c]) == a + b + c
  {
    TwoParts(a, b);
    assert [a, b, c][..2] == [a, b];
  }

  /** What the file says in which one list, an operator's own of high trust,
      copied from c, claims the second of two categories of ab, and both of b. */
  const SAMPLE := Image(0x1234, [[97], [98, 99]], [Source([115], [112], 2, true, [[99]])],
                        [[Claim(0, [1])], [Claim(0, [0, 1])]], [Row([97, 98], 0), Row([98], 1)])

  lemma SampleTables()
    ensures Concat(Strings(SAMPLE.cats)) == [1, 0, 97] + [2, 0, 98, 99]
    ensures Concat(Records(SAMPLE.srcs)) == [1, 0, 115] + [1, 0, 112] + [2, 1, 1] + [1, 0, 99]
  {
    TwoParts(Str([97]), Str([98, 99]));
    assert Strings(SAMPLE.cats) == [Str([97]), Str([98, 99])];
    OnePart(Str([99]));
    assert Strings([[99]]) == [Str([99])];
    OnePart(SourceRecord(SAMPLE.srcs[0]));
    assert Records(SAMPLE.srcs) == [SourceRecord(SAMPLE.srcs[0])];
  }

  lemma SampleSets()
    ensures AttrBytes(SAMPLE.attrs[0]) == [1, 0] + [0, 0, 1, 0, 1, 0]
    ensures AttrBytes(SAMPLE.attrs[1]) == [1, 0] + [0, 0, 2, 0, 0, 0, 1, 0]
  {
    OnePart(U16(1));
    assert Shorts([1]) == [U16(1)];
    TwoParts(U16(0), U16(1));
    assert Shorts([0, 1]) == [U16(0), U16(1)];
    OnePart(ClaimBytes(Claim(0, [1])));
    assert ClaimParts(SAMPLE.attrs[0]) == [ClaimBytes(Claim(0, [1]))];
    OnePart(ClaimBytes(Claim(0, [0, 1])));
    assert ClaimParts(SAMPLE.attrs[1]) == [ClaimBytes(Claim(0, [0, 1]))];
  }

  lemma TwoOffsets(a: seq<Byte>, b: seq<Byte>)
    ensures Offsets([a, b]) == [0, |a|, |a| + |b|]
  {
    OnePart(a);
    TwoParts(a, b);
    var parts := [a, b];
    assert parts[..0] == [] && parts[..1] == [a] && parts[..2] == [a, b];
    assert Offset(parts, 0) == 0 && Offset(parts, 1) == |a| && Offset(parts, 2) == |a| + |b|;
  }

  lemma ThreeWords(a: nat, b: nat, c: nat)
    ensures Concat(Words([a, b, c])) == U32(a) + U32(b) + U32(c)
  {
    assert Words([a, b, c]) == [U32(a), U32(b), U32(c)];
    ThreeParts(U32(a), U32(b), U32(c));
  }

  lemma SampleOffsets()
    ensures Concat(Words(Offsets(AttrParts(SAMPLE.attrs)))) == [0, 0, 0, 0] + [8, 0, 0, 0] + [18, 0, 0, 0]
  {
    SampleSets();
    assert AttrParts(SAMPLE.attrs) == [AttrBytes(SAMPLE.attrs[0]), AttrBytes(SAMPLE.attrs[1])];
    TwoOffsets(AttrBytes(SAMPLE.attrs[0]), AttrBytes(SAMPLE.attrs[1]));
    ThreeWords(0, 8, 18);
  }

  lemma SampleNames()
    ensures Concat(Words(Offsets(RowNames(SAMPLE.rows)))) == [0, 0, 0, 0] + [2, 0, 0, 0] + [3, 0, 0, 0]
    ensures Concat(Words(RowAttrs(SAMPLE.rows))) == [0, 0, 0, 0] + [1, 0, 0, 0]
  {
    assert RowNames(SAMPLE.rows) == [[97, 98], [98]];
    TwoOffsets([97, 98], [98]);
    ThreeWords(0, 2, 3);
    assert RowAttrs(SAMPLE.rows) == [0, 1] && Words([0, 1]) == [U32(0), U32(1)];
    TwoParts(U32(0), U32(1));
  }

  lemma SampleHeader()
    ensures Header(SAMPLE) == [84, 66, 73, 68, 88, 0, 0, 3] + [0x34, 0x12, 0, 0, 0, 0, 0, 0]
                              + [2, 0, 0, 0] + [2, 0, 0, 0] + [2, 0] + [1, 0]
  {
    assert U32(0x1234) == [0x34, 0x12, 0, 0] && U32(0) == [0, 0, 0, 0] && U32(2) == [2, 0, 0, 0];
    assert U64(0x1234) == U32(0x1234) + U32(0);
    assert MAGIC == [84, 66, 73, 68, 88, 0, 0, 3];
  }

  /** Its bytes: magic, seconds, counts; categories; the source, its trust, that
      it is local and whom it copies; where each claim set starts, and the claim
      sets; where each name starts, each name's claim set, and the names. */
  lemma SampleBytes()
    ensures Sections(SAMPLE)
            == [[84, 66, 73, 68, 88, 0, 0, 3] + [0x34, 0x12, 0, 0, 0, 0, 0, 0]
                + [2, 0, 0, 0] + [2, 0, 0, 0] + [2, 0] + [1, 0],
                [1, 0, 97] + [2, 0, 98, 99],
                [1, 0, 115] + [1, 0, 112] + [2, 1, 1] + [1, 0, 99],
                [0, 0, 0, 0] + [8, 0, 0, 0] + [18, 0, 0, 0],
                ([1, 0] + [0, 0, 1, 0, 1, 0]) + ([1, 0] + [0, 0, 2, 0, 0, 0, 1, 0]),
                [0, 0, 0, 0] + [2, 0, 0, 0] + [3, 0, 0, 0],
                [0, 0, 0, 0] + [1, 0, 0, 0],
                [97, 98] + [98]]
  {
    SampleHeader();
    SampleTables();
    SampleSets();
    SampleOffsets();
    SampleNames();
    assert AttrParts(SAMPLE.attrs) == [AttrBytes(SAMPLE.attrs[0]), AttrBytes(SAMPLE.attrs[1])];
    TwoParts(AttrBytes(SAMPLE.attrs[0]), AttrBytes(SAMPLE.attrs[1]));
    assert RowNames(SAMPLE.rows) == [[97, 98], [98]];
    TwoParts([97, 98], [98]);
  }
}
