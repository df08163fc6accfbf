/** Looking things up in the bytes of an index file by the tables read when it
    was opened, whether or not the two belong together. None stands for an
    exception: bytes that do not reach that far, an id no table has, no file. */
module Reading {
  import opened Wrappers
  import opened Names
  import opened Layout

  type Claims = seq<(Source, Text)>

  /** What is read of a file when it is opened: its tables, and where the rest is. */
  datatype Tables = Tables(builtAt: nat, nDomains: nat, categories: seq<Text>, sources: seq<Source>,
                           attrOffsets: nat, attrTable: nat, offsets: nat, attrIndex: nat, blob: nat)

  // -- reading whatever is there ---------------------------------------------------

  /** A slice, which ends where the bytes do. */
  function Slice(f: seq<Byte>, start: nat, end: nat): seq<Byte> {
    if start <= end && start <= |f| then f[start..Min(end, |f|)] else []
  }

  function Numbers(f: seq<Byte>, pos: nat, count: nat): seq<nat>
    requires pos + 2 * count <= |f|
  {
    seq(count, i requires 0 <= i < count => Read16(f, pos + 2 * i))
  }

  /** One source's claim. */
  function ClaimAt(f: seq<Byte>, pos: nat): Option<Claim> {
    if pos + 4 > |f| || pos + 4 + 2 * Read16(f, pos + 2) > |f| then None
    else Some(Claim(Read16(f, pos), Numbers(f, pos + 4, Read16(f, pos + 2))))
  }

  /** Its ids replaced by what they stand for. */
  function PairsOf(claim: Claim, categories: seq<Text>, sources: seq<Source>): Option<Claims> {
    if claim.src >= |sources| || exists i | 0 <= i < |claim.cats| :: claim.cats[i] >= |categories| then None
    else Some(seq(|claim.cats|, i requires 0 <= i < |claim.cats| => (sources[claim.src], categories[claim.cats[i]])))
  }

  function Prepend(claims: Claims, rest: Option<Claims>): Option<Claims> {
    if rest.None? then None else Some(claims + rest.value)
  }

  /** So many claims, one after another. */
  function ClaimsAt(f: seq<Byte>, pos: nat, n: nat, categories: seq<Text>, sources: seq<Source>): Option<Claims>
    decreases n
  {
    if n == 0 then Some([])
    else
      var claim := ClaimAt(f, pos);
      if claim.None? || PairsOf(claim.value, categories, sources).None? then None
      else Prepend(PairsOf(claim.value, categories, sources).value,
                   ClaimsAt(f, pos + 4 + 2 * |claim.value.cats|, n - 1, categories, sources))
  }

  /** A claim set: how many claims, and the claims. */
  function SetAt(f: seq<Byte>, pos: nat, categories: seq<Text>, sources: seq<Source>): Option<Claims> {
    if pos + 2 > |f| then None else ClaimsAt(f, pos + 2, Read16(f, pos), categories, sources)
  }

  /** The stored name of a row. */
  function NameIn(bytes: Option<seq<Byte>>, tables: Tables, i: nat): Option<Text> {
    var at := tables.offsets + 4 * i;
    if bytes.None? || at + 8 > |bytes.value| then None
    else Some(Slice(bytes.value, tables.blob + Read32(bytes.value, at), tables.blob + Read32(bytes.value, at + 4)))
  }

  function NamesIn(bytes: Option<seq<Byte>>, tables: Tables): nat -> Option<Text> {
    i => NameIn(bytes, tables, i)
  }

  /** Where binary search over these names ends. */
  function Search(names: nat -> Option<Text>, target: Text, lo: nat, hi: nat): Option<nat>
    decreases hi - lo
  {
    if lo >= hi then Some(lo)
    else
      var mid := (lo + hi) / 2;
      match names(mid)
      case None => None
      case Some(name) =>
        if Less(name, target) then Search(names, target, mid + 1, hi) else Search(names, target, lo, mid)
  }

  /** What a reader goes by: the bytes open, if any, the tables it read last,
      and the claim sets it had decoded before these bytes were opened. */
  datatype Reader = Reader(bytes: Option<seq<Byte>>, tables: Tables, base: map<nat, Claims>) {

    function Word(pos: nat): Option<nat> {
      if bytes.None? || pos + 4 > |bytes.value| then None else Some(Read32(bytes.value, pos))
    }

    /** The stored name of a row. */
    function NameOf(i: nat): Option<Text> {
      NameIn(bytes, tables, i)
    }

    /** The row of a stored name, if it has one. */
    function RowOf(target: Text): Option<Option<nat>> {
      var lo := Search(NamesIn(bytes, tables), target, 0, tables.nDomains);
      if lo.None? then None
      else if lo.value >= tables.nDomains then Some(None)
      else if NameOf(lo.value).None? then None
      else Some(if NameOf(lo.value).value == target then Some(lo.value) else None)
    }

    /** The claims of one claim set. */
    function Decode(a: nat): Option<Claims> {
      if a in base then Some(base[a])
      else
        var start := Word(tables.attrOffsets + 4 * a);
        if start.None? then None
        else SetAt(bytes.value, tables.attrTable + start.value, tables.categories, tables.sources)
    }

    function DecodeRow(i: nat): Option<Claims> {
      var a := Word(tables.attrIndex + 4 * i);
      if a.None? then None else Decode(a.value)
    }

    /** The claims of a key. */
    function ClaimsFor(key: Text): Option<Claims> {
      match RowOf(ReverseLabels(key))
      case None => None
      case Some(None) => Some([])
      case Some(Some(i)) => DecodeRow(i)
    }
  }

  // -- reading what was written -------------------------------------------------------

  /** The place of a row's name, from its offset to the next. */
  predicate NameSpan(f: seq<Byte>, offsets: nat, blob: nat, i: nat, name: Text) {
    && offsets + 4 * i + 8 <= |f|
    && At(f, blob + Read32(f, offsets + 4 * i), name)
    && Read32(f, offsets + 4 * (i + 1)) == Read32(f, offsets + 4 * i) + |name|
  }

  /** The place of a claim set, at its offset. */
  predicate AttrSpan(f: seq<Byte>, offsets: nat, table: nat, a: nat, attr: Attr) {
    offsets + 4 * a + 4 <= |f| && At(f, table + Read32(f, offsets + 4 * a), AttrBytes(attr))
  }

  predicate WordSpan(f: seq<Byte>, words: nat, i: nat, n: nat) {
    words + 4 * i + 4 <= |f| && Read32(f, words + 4 * i) == n
  }

  /** What the reader looks up in the file is what the image says. */
  predicate Holds(f: seq<Byte>, im: Image, attrOffsets: nat, attrs: nat, offsets: nat, rowAttrs: nat, blob: nat) {
    && (forall a {:trigger AttrSpan(f, attrOffsets, attrs, a, im.attrs[a])} | 0 <= a < |im.attrs| ::
          AttrSpan(f, attrOffsets, attrs, a, im.attrs[a]))
    && (forall i {:trigger NameSpan(f, offsets, blob, i, im.rows[i].name)} | 0 <= i < |im.rows| ::
          NameSpan(f, offsets, blob, i, im.rows[i].name))
    && (forall i {:trigger WordSpan(f, rowAttrs, i, im.rows[i].attr)} | 0 <= i < |im.rows| ::
          WordSpan(f, rowAttrs, i, im.rows[i].attr))
  }

  /** The tables and the bytes belong together and say what the image does. */
  ghost predicate Whole(r: Reader, im: Image) {
    && Fits(im) && r.bytes.Some? && r.base == map[]
    && r.tables.nDomains == |im.rows| && r.tables.categories == im.cats && r.tables.sources == im.srcs
    && Holds(r.bytes.value, im, r.tables.attrOffsets, r.tables.attrTable, r.tables.offsets, r.tables.attrIndex,
             r.tables.blob)
  }

  lemma NumbersBack(f: seq<Byte>, pos: nat, ids: seq<nat>)
    requires At(f, pos, Concat(Shorts(ids))) && forall k <- ids :: k < K16
    ensures pos + 2 * |ids| <= |f| && Numbers(f, pos, |ids|) == ids && |Concat(Shorts(ids))| == 2 * |ids|
  {
    OffsetEven(Shorts(ids), 2, |ids|);
    OffsetAll(Shorts(ids));
    forall i | 0 <= i < |ids| ensures Read16(f, pos + 2 * i) == ids[i] {
      PartAt(f, pos, Shorts(ids), i);
      OffsetEven(Shorts(ids), 2, i);
      assert ids[i] in ids;
      Back16(f, pos + 2 * i, ids[i]);
    }
  }

  /** A written claim is read back. */
  lemma ClaimBack(f: seq<Byte>, pos: nat, c: Claim, cats: nat, srcs: nat)
    requires At(f, pos, ClaimBytes(c)) && ClaimFits(c, cats, srcs) && cats <= K16 && srcs <= K16
    ensures ClaimAt(f, pos) == Some(c) && |ClaimBytes(c)| == 4 + 2 * |c.cats|
  {
    AtParts(f, pos, U16(c.src), U16(|c.cats|) + Concat(Shorts(c.cats)));
    AtParts(f, pos + 2, U16(|c.cats|), Concat(Shorts(c.cats)));
    Back16(f, pos, c.src);
    Back16(f, pos + 2, |c.cats|);
    NumbersBack(f, pos + 4, c.cats);
  }

  lemma PairsBack(c: Claim, im: Image)
    requires ClaimFits(c, |im.cats|, |im.srcs|)
    ensures PairsOf(c, im.cats, im.srcs) == Some(Pairs(im, c))
  {
    assert forall i | 0 <= i < |c.cats| :: c.cats[i] in c.cats;
    var pairs := PairsOf(c, im.cats, im.srcs).value;
    assert forall i | 0 <= i < |c.cats| :: pairs[i] == Pairs(im, c)[i];
  }

  lemma OneClaim(f: seq<Byte>, pos: nat, n: nat, im: Image, c: Claim, later: Claims)
    requires ClaimFits(c, |im.cats|, |im.srcs|) && ClaimAt(f, pos) == Some(c)
    requires ClaimsAt(f, pos + 4 + 2 * |c.cats|, n, im.cats, im.srcs) == Some(later)
    ensures ClaimsAt(f, pos, n + 1, im.cats, im.srcs) == Some(Pairs(im, c) + later)
  {
    PairsBack(c, im);
  }

  lemma ExpandNext(im: Image, attr: Attr, i: nat)
    requires AttrFits(attr, |im.cats|, |im.srcs|) && i < |attr|
    ensures Expand(im, attr[..i + 1]) == Expand(im, attr[..i]) + Pairs(im, attr[i])
  {
    assert attr[..i + 1][..i] == attr[..i];
  }

  /** Where each claim of a set is, and where the last ends. */
  predicate InLine(f: seq<Byte>, places: seq<nat>, attr: Attr) {
    && |places| == |attr| + 1
    && forall i | 0 <= i < |attr| ::
         ClaimAt(f, places[i]) == Some(attr[i]) && places[i + 1] == places[i] + 4 + 2 * |attr[i].cats|
  }

  lemma LineStands(f: seq<Byte>, start: nat, attr: Attr, cats: nat, srcs: nat) returns (places: seq<nat>)
    requires At(f, start, Concat(ClaimParts(attr))) && AttrFits(attr, cats, srcs) && cats <= K16 && srcs <= K16
    ensures InLine(f, places, attr) && places[0] == start
  {
    places := seq(|attr| + 1, i requires 0 <= i <= |attr| => start + Offset(ClaimParts(attr), i));
    forall i | 0 <= i < |attr|
      ensures ClaimAt(f, places[i]) == Some(attr[i]) && places[i + 1] == places[i] + 4 + 2 * |attr[i].cats|
    {
      PartAt(f, start, ClaimParts(attr), i);
      OffsetNext(ClaimParts(attr), i);
      ClaimBack(f, places[i], attr[i], cats, srcs);
    }
  }

  /** The pairs of a set from its i-th claim on. */
  function ExpandFrom(im: Image, attr: Attr, i: nat): Claims
    requires AttrFits(attr, |im.cats|, |im.srcs|) && i <= |attr|
    decreases |attr| - i
  {
    if i == |attr| then [] else Pairs(im, attr[i]) + ExpandFrom(im, attr, i + 1)
  }

  lemma {:induction false} ExpandRest(im: Image, attr: Attr, i: nat)
    requires AttrFits(attr, |im.cats|, |im.srcs|) && i <= |attr|
    ensures Expand(im, attr[..i]) + ExpandFrom(im, attr, i) == Expand(im, attr)
    decreases |attr| - i
  {
    if i == |attr| {
      assert attr[..i] == attr;
    } else {
      ExpandRest(im, attr, i + 1);
      ExpandNext(im, attr, i);
    }
  }

  /** The claims of a set from the i-th on are read back. */
  lemma {:induction false} ClaimsBack(f: seq<Byte>, places: seq<nat>, im: Image, attr: Attr, i: nat)
    requires InLine(f, places, attr) && i <= |attr| && AttrFits(attr, |im.cats|, |im.srcs|)
    ensures ClaimsAt(f, places[i], |attr| - i, im.cats, im.srcs) == Some(ExpandFrom(im, attr, i))
    decreases |attr| - i
  {
    if i < |attr| {
      ClaimsBack(f, places, im, attr, i + 1);
      OneClaim(f, places[i], |attr| - (i + 1), im, attr[i], ExpandFrom(im, attr, i + 1));
    }
  }

  lemma SetBack(f: seq<Byte>, pos: nat, im: Image, attr: Attr)
    requires At(f, pos, AttrBytes(attr)) && AttrFits(attr, |im.cats|, |im.srcs|) && |im.cats| <= K16 && |im.srcs| <= K16
    ensures SetAt(f, pos, im.cats, im.srcs) == Some(Expand(im, attr))
  {
    AtParts(f, pos, U16(|attr|), Concat(ClaimParts(attr)));
    Back16(f, pos, |attr|);
    var places := LineStands(f, pos + 2, attr, |im.cats|, |im.srcs|);
    ClaimsBack(f, places, im, attr, 0);
    ExpandRest(im, attr, 0);
    assert attr[..0] == [] && Expand(im, []) + ExpandFrom(im, attr, 0) == ExpandFrom(im, attr, 0);
  }

  /** A written claim set is read back, in its order. */
  lemma DecodeBack(r: Reader, im: Image, a: nat)
    requires Whole(r, im) && a < |im.attrs|
    ensures r.Decode(a) == Some(Expand(im, im.attrs[a]))
  {
    var start := r.Word(r.tables.attrOffsets + 4 * a);
    assert AttrSpan(r.bytes.value, r.tables.attrOffsets, r.tables.attrTable, a, im.attrs[a]);
    SetBack(r.bytes.value, r.tables.attrTable + start.value, im, im.attrs[a]);
    assert r.Decode(a) == SetAt(r.bytes.value, r.tables.attrTable + start.value, im.cats, im.srcs);
  }

  lemma NameBack(r: Reader, im: Image, i: nat)
    requires Whole(r, im) && i < |im.rows|
    ensures r.NameOf(i) == Some(im.rows[i].name)
  {
    assert NameSpan(r.bytes.value, r.tables.offsets, r.tables.blob, i, im.rows[i].name);
  }

  lemma RowBack(r: Reader, im: Image, i: nat)
    requires Whole(r, im) && i < |im.rows|
    ensures r.DecodeRow(i) == Some(ClaimsOfRow(im, i))
  {
    assert WordSpan(r.bytes.value, r.tables.attrIndex, i, im.rows[i].attr);
    DecodeBack(r, im, im.rows[i].attr);
  }

  // -- the search -------------------------------------------------------------------

  lemma AllBelow(im: Image, mid: nat, target: Text)
    requires Sorted(im.rows) && mid < |im.rows| && Less(im.rows[mid].name, target)
    ensures forall i | 0 <= i <= mid :: Less(im.rows[i].name, target)
  {
    forall i | 0 <= i < mid ensures Less(im.rows[i].name, target) {
      assert Before(im.rows, i, mid);
      LessTransitive(im.rows[i].name, im.rows[mid].name, target);
    }
  }

  lemma NoneBelow(im: Image, mid: nat, target: Text)
    requires Sorted(im.rows) && mid < |im.rows| && !Less(im.rows[mid].name, target)
    ensures forall i | mid <= i < |im.rows| :: !Less(im.rows[i].name, target)
  {
    forall i | mid < i < |im.rows| ensures !Less(im.rows[i].name, target) {
      assert Before(im.rows, mid, i);
      if Less(im.rows[i].name, target) { LessTransitive(im.rows[mid].name, im.rows[i].name, target); }
    }
  }

  lemma NoneEqual(im: Image, lo: nat, target: Text)
    requires Sorted(im.rows) && lo < |im.rows| && !Less(im.rows[lo].name, target) && im.rows[lo].name != target
    ensures forall i | lo <= i < |im.rows| :: im.rows[i].name != target
  {
    LessTotal(im.rows[lo].name, target);
    forall i | lo < i < |im.rows| ensures im.rows[i].name != target {
      assert Before(im.rows, lo, i);
      LessOneWay(target, im.rows[lo].name);
      LessTransitive(target, im.rows[lo].name, im.rows[i].name);
      LessOneWay(target, im.rows[i].name);
    }
  }

  /** Binary search over sorted rows ends at the first that is not below. */
  lemma {:induction false} SearchEnds(names: nat -> Option<Text>, im: Image, target: Text, lo: nat, hi: nat)
    requires Sorted(im.rows) && forall i: nat | i < |im.rows| :: names(i) == Some(im.rows[i].name)
    requires lo <= hi <= |im.rows|
    requires forall i | 0 <= i < lo :: Less(im.rows[i].name, target)
    requires forall i | hi <= i < |im.rows| :: !Less(im.rows[i].name, target)
    ensures var end := Search(names, target, lo, hi);
            && end.Some? && end.value <= |im.rows|
            && (forall i | 0 <= i < end.value :: Less(im.rows[i].name, target))
            && (forall i | end.value <= i < |im.rows| :: !Less(im.rows[i].name, target))
    decreases hi - lo
  {
    if lo < hi {
      var mid := (lo + hi) / 2;
      assert names(mid) == Some(im.rows[mid].name);
      if Less(im.rows[mid].name, target) {
        AllBelow(im, mid, target);
        SearchEnds(names, im, target, mid + 1, hi);
      } else {
        NoneBelow(im, mid, target);
        SearchEnds(names, im, target, lo, mid);
      }
    }
  }

  /** Binary search finds a row exactly when one has the name. */
  lemma RowFound(r: Reader, im: Image, target: Text)
    requires Whole(r, im)
    ensures r.RowOf(target).Some?
    ensures r.RowOf(target).value.Some? ==> Stored(im, target, r.RowOf(target).value.value)
    ensures r.RowOf(target).value.None? ==> forall i | 0 <= i < |im.rows| :: im.rows[i].name != target
  {
    var names := NamesIn(r.bytes, r.tables);
    forall i: nat | i < |im.rows| ensures names(i) == Some(im.rows[i].name) { NameBack(r, im, i); }
    SearchEnds(names, im, target, 0, |im.rows|);
    var lo := Search(names, target, 0, |im.rows|).value;
    if lo < |im.rows| {
      NameBack(r, im, lo);
      if im.rows[lo].name != target { NoneEqual(im, lo, target); }
    }
    forall i | 0 <= i < lo ensures im.rows[i].name != target { LessOneWay(im.rows[i].name, target); }
  }

  /** What is looked up of a key is what the file says of it. */
  lemma ClaimsForBack(r: Reader, im: Image, key: Text)
    requires Whole(r, im)
    ensures r.ClaimsFor(key) == Some(Lookup(im, key))
  {
    RowFound(r, im, ReverseLabels(key));
    var found := r.RowOf(ReverseLabels(key)).value;
    if found.Some? {
      LookupRow(im, key, found.value);
      RowBack(r, im, found.value);
    }
  }
}
