/** Reopening an index when another file has taken the path: what lookups answer
    afterwards, and where they answer by two files at once. */
module Reopening {
  import opened Wrappers
  import opened Names
  import opened Layout
  import opened Reading
  import opened Index

  /** The reader serves this file and has decoded some of its claim sets. */
  ghost predicate Served(before: Reader, of: Image) {
    && Fits(of) && Known(of.srcs) && before.tables == TablesIn(of)
    && forall a <- before.base :: a < |of.attrs| && before.base[a] == Expand(of, of.attrs[a])
  }

  /** Once the next file is open, every lookup answers what it says. */
  lemma OpenedTells(before: Reader, im: Image, host: Text, boundary: Option<Text>)
    requires Fits(im) && Known(im.srcs)
    ensures Heard(After(before, Encode(im), im), host, boundary) == Some(Matched(im, host, boundary))
  {
    WholeIsOurs(im);
    OwnTables(im);
    HeardBack(Reader(Some(Encode(im)), TablesIn(im), map[]), im, host, boundary);
  }

  // -- a file without rows -----------------------------------------------------------

  /** With no rows to go through the bytes are never looked at. */
  lemma {:induction false} NothingHeard(r: Reader, probes: seq<(Text, bool)>)
    requires r.tables.nDomains == 0
    ensures AnswersOf(r, probes) == Some([])
  {
    if probes != [] {
      var n := |probes| - 1;
      NothingHeard(r, probes[..n]);
      assert r.ClaimsFor(probes[n].0) == Some([]);
      var none: seq<(Text, Source, Text)> := [];
      assert none + Kept(probes[n].0, probes[n].1, []) == none;
    }
  }

  lemma {:induction false} NothingSaid(im: Image, probes: seq<(Text, bool)>)
    requires Fits(im) && im.rows == []
    ensures Answers(im, probes) == []
  {
    if probes != [] {
      var n := |probes| - 1;
      NothingSaid(im, probes[..n]);
      assert Lookup(im, probes[n].0) == [];
    }
  }

  lemma EmptyTells(before: Reader, im: Image, host: Text, boundary: Option<Text>)
    requires Fits(im) && im.rows == []
    ensures Heard(After(before, Encode(im), im), host, boundary) == Some(Matched(im, host, boundary))
  {
    WholeIsOurs(im);
    NothingHeard(After(before, Encode(im), im), Probes(host, boundary));
    NothingSaid(im, Probes(host, boundary));
  }

  // -- a file refused ----------------------------------------------------------------

  /** The offsets a reader goes by point past the header, whatever was opened since. */
  lemma OffsetsPastHeader(before: Reader, content: seq<Byte>, im: Image)
    requires before.tables.offsets >= HEADER_SIZE || Opens(content, im)
    ensures After(before, content, im).tables.offsets >= HEADER_SIZE
  {
    Stands(im);
  }

  /** After a file of another format, or none, every lookup raises if and only if
      the header read last told of rows; if it told of none, every lookup
      answers that nobody claims anything. */
  lemma RefusedRaises(before: Reader, content: seq<Byte>, im: Image, host: Text, boundary: Option<Text>)
    requires before.tables.offsets >= HEADER_SIZE && !Ours(content) && host != []
    ensures Heard(After(before, content, im), host, boundary) == if before.tables.nDomains != 0 then None else Some([])
  {
    var r := After(before, content, im);
    var probes := Probes(host, boundary);
    if before.tables.nDomains == 0 {
      NothingHeard(r, probes);
    } else {
      if |content| >= HEADER_SIZE { assert r.bytes == None; }
      assert NamesIn(r.bytes, r.tables)(r.tables.nDomains / 2) == None;
      assert r.ClaimsFor(host) == None;
      AnswersOfNext(r, probes, 0);
      NoneAfter(r, probes, 1);
    }
  }

  // -- a file with an unknown trust level ----------------------------------------------

  /** The same records, byte for byte as long, of sources with other flags. */
  function Disguised(srcs: seq<Source>): (r: seq<Source>)
    ensures |r| == |srcs| && forall i | 0 <= i < |srcs| :: r[i] == srcs[i].(trust := LOW, local := !srcs[i].local)
  {
    seq(|srcs|, i requires 0 <= i < |srcs| => srcs[i].(trust := LOW, local := !srcs[i].local))
  }

  function Disguise(im: Image): Image {
    im.(srcs := Disguised(im.srcs))
  }

  lemma DisguiseFits(im: Image)
    requires Fits(im)
    ensures Fits(Disguise(im)) && Known(Disguise(im).srcs)
  {
    forall i | 0 <= i < |im.srcs| ensures SourceFits(Disguised(im.srcs)[i]) { assert SourceFits(im.srcs[i]); }
  }

  lemma {:induction false} SameLength(parts: seq<seq<Byte>>, others: seq<seq<Byte>>, i: nat)
    requires i <= |parts| == |others| && forall j | 0 <= j < |parts| :: |parts[j]| == |others[j]|
    ensures Offset(parts, i) == Offset(others, i)
  {
    if i > 0 {
      SameLength(parts, others, i - 1);
      OffsetNext(parts, i - 1);
      OffsetNext(others, i - 1);
    }
  }

  lemma RecordLength(s: Source)
    ensures |SourceRecord(s.(trust := LOW, local := !s.local))| == |SourceRecord(s)|
  {
  }

  /** Every section of the two files is as long, so each stands at the same place. */
  lemma SamePlaces(im: Image)
    ensures PlacesOf(Disguise(im)) == PlacesOf(im)
  {
    var a, b := Sections(im), Sections(Disguise(im));
    assert |b[SRCS]| == |a[SRCS]| by {
      var x, y := Records(im.srcs), Records(Disguise(im).srcs);
      forall j | 0 <= j < |x| ensures |x[j]| == |y[j]| { RecordLength(im.srcs[j]); }
      SameLength(x, y, |x|);
      OffsetAll(x);
      OffsetAll(y);
    }
    forall k | 0 <= k < 8 ensures |a[k]| == |b[k]| {
      if k != SRCS { SameSection(im, k); }
    }
    forall k | 0 <= k < 8 ensures Place(im, k) == Place(Disguise(im), k) { SameLength(a, b, k); }
  }

  lemma SameSection(im: Image, k: nat)
    requires k < 8 && k != SRCS
    ensures |Sections(Disguise(im))[k]| == |Sections(im)[k]|
  {
  }

  /** Half open after its disguise, the file is read as the disguise says. */
  lemma HalfOpenHears(im: Image, host: Text, boundary: Option<Text>)
    requires Fits(im) && !Known(im.srcs)
    ensures var before := Reader(None, TablesIn(Disguise(im)), map[]);
            && Served(before, Disguise(im))
            && Heard(After(before, Encode(im), im), host, boundary) == Some(Matched(Disguise(im), host, boundary))
  {
    var before := Reader(None, TablesIn(Disguise(im)), map[]);
    var after := After(before, Encode(im), im);
    DisguiseFits(im);
    SamePlaces(im);
    WholeIsOurs(im);
    OwnTables(im);
    assert after == Reader(Some(Encode(im)), TablesIn(im).(sources := Disguise(im).srcs), map[]);
    assert Whole(after, Disguise(im));
    HeardBack(after, Disguise(im), host, boundary);
  }

  lemma {:induction false} DisguisedClaims(im: Image, attr: Attr)
    requires AttrFits(attr, |im.cats|, |im.srcs|)
    ensures |Expand(Disguise(im), attr)| == |Expand(im, attr)|
    ensures forall j | 0 <= j < |Expand(im, attr)| ::
      Expand(Disguise(im), attr)[j].0.local != Expand(im, attr)[j].0.local
  {
    if attr != [] { DisguisedClaims(im, attr[..|attr| - 1]); }
  }

  lemma {:induction false} KeptAll(key: Text, claims: Claims)
    ensures |Kept(key, true, claims)| == |claims|
    ensures forall j | 0 <= j < |claims| :: Kept(key, true, claims)[j] == (key, claims[j].0, claims[j].1)
  {
    if claims != [] { KeptAll(key, claims[..|claims| - 1]); }
  }

  lemma {:induction false} FirstAnswers(im: Image, probes: seq<(Text, bool)>)
    requires Fits(im) && probes != []
    ensures Kept(probes[0].0, probes[0].1, Lookup(im, probes[0].0)) <= Answers(im, probes)
  {
    var n := |probes| - 1;
    if n > 0 { FirstAnswers(im, probes[..n]); }
    else { assert Answers(im, probes[..0]) == []; }
  }

  /** A row of a key that is not empty, with claims. */
  predicate Tells(im: Image, i: nat)
    requires Fits(im)
  {
    i < |im.rows| && im.rows[i].name != [] && ClaimsOfRow(im, i) != []
  }

  /** What is first heard of a stored key is its row's first claim. */
  lemma HeardFirst(im: Image, i: nat) returns (host: Text)
    requires Fits(im) && Tells(im, i)
    ensures host == ReverseLabels(im.rows[i].name) && host != []
    ensures Matched(im, host, None) != []
    ensures Matched(im, host, None)[0] == (host, ClaimsOfRow(im, i)[0].0, ClaimsOfRow(im, i)[0].1)
  {
    host := ReverseLabels(im.rows[i].name);
    ReverseTwice(im.rows[i].name);
    assert ReverseLabels([]) == [] by { assert Reverse(Split([])) == [[]]; }
    LookupRow(im, host, i);
    var probes := Probes(host, None);
    FirstAnswers(im, probes);
    KeptAll(host, ClaimsOfRow(im, i));
    assert Kept(host, true, ClaimsOfRow(im, i)) <= Matched(im, host, None);
  }

  /** For every such file with an unknown trust level there is one before it
      after which a stored key is not answered as the file says. */
  lemma HalfOpenMisleads(im: Image, i: nat) returns (before: Reader, of: Image, host: Text)
    requires Fits(im) && !Known(im.srcs) && Tells(im, i)
    ensures Served(before, of)
    ensures Heard(After(before, Encode(im), im), host, None) != Some(Matched(im, host, None))
  {
    of := Disguise(im);
    before := Reader(None, TablesIn(of), map[]);
    DisguiseFits(im);
    DisguisedClaims(im, im.attrs[im.rows[i].attr]);
    host := HeardFirst(im, i);
    var same := HeardFirst(of, i);
    HalfOpenHears(im, host, None);
  }

  /** A file of one row, which one source with the trust level 9 lists. */
  const EXAMPLE := Image(1, [[97]], [Source([98], [98], 9, false, [])], [[Claim(0, [0])]], [Row([99], 0)])

  lemma ExampleMisleads() returns (before: Reader, of: Image, host: Text)
    ensures Fits(EXAMPLE) && Ours(Encode(EXAMPLE)) && Served(before, of)
    ensures Heard(After(before, Encode(EXAMPLE), EXAMPLE), host, None) != Some(Matched(EXAMPLE, host, None))
  {
    OneLength(AttrParts(EXAMPLE.attrs));
    OneLength(RowNames(EXAMPLE.rows));
    OneLength(ClaimParts(EXAMPLE.attrs[0]));
    OneLength(Shorts([0]));
    WholeIsOurs(EXAMPLE);
    var attr: Attr := [Claim(0, [0])];
    assert attr[..0] == [] && Expand(EXAMPLE, attr) == Pairs(EXAMPLE, attr[0]);
    before, of, host := HalfOpenMisleads(EXAMPLE, 0);
  }

  lemma OneLength(parts: seq<seq<Byte>>)
    requires |parts| == 1
    ensures |Concat(parts)| == |parts[0]|
  {
    assert parts[..0] == [];
  }

  // -- exactly when it may be reopened ---------------------------------------------------

  /** Whatever file was open before and whatever was decoded of it: lookups
      after reopening answer what the new file says if and only if every trust
      level of it is known, or it lists nothing. The builder writes no row
      without claims; of a file with rows, one is to have a key that is not empty. */
  lemma ReopeningTells(im: Image)
    requires Fits(im) && (im.rows != [] ==> exists i :: 0 <= i < |im.rows| && Tells(im, i))
    ensures (forall before, of, host, boundary | Served(before, of) ::
               Heard(After(before, Encode(im), im), host, boundary) == Some(Matched(im, host, boundary)))
            <==> Known(im.srcs) || im.rows == []
  {
    if Known(im.srcs) || im.rows == [] {
      forall before, of, host, boundary | Served(before, of)
        ensures Heard(After(before, Encode(im), im), host, boundary) == Some(Matched(im, host, boundary))
      {
        if Known(im.srcs) { OpenedTells(before, im, host, boundary); } else { EmptyTells(before, im, host, boundary); }
      }
    } else {
      var i :| 0 <= i < |im.rows| && Tells(im, i);
      var before, of, host := HalfOpenMisleads(im, i);
    }
  }
}
