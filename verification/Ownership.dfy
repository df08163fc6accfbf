/** Who may speak for a host: no list of other people's, about a name that is everybody's. */
module Ownership {
  import opened Wrappers
  import opened Names
  import opened Layout
  import opened Reading
  import opened Index
  import opened Psl

  /** A claim counts for a host exactly when the file makes it of a key asked
      for the host, and the key is the owner's or the source a local one. */
  lemma {:induction false} KeptMeans(key: Text, owned: bool, claims: Claims, t: (Text, Source, Text))
    ensures t in Kept(key, owned, claims) <==> t.0 == key && (t.1, t.2) in claims && (owned || t.1.local)
  {
    if claims != [] {
      var n := |claims| - 1;
      KeptMeans(key, owned, claims[..n], t);
      assert claims == claims[..n] + [claims[n]];
      assert (t.1, t.2) in claims <==> (t.1, t.2) in claims[..n] || (t.1, t.2) == claims[n];
      var (source, category) := claims[n];
      assert (t.1, t.2) == claims[n] <==> t.1 == source && t.2 == category;
      assert t == (t.0, t.1, t.2);
    }
  }

  predicate Answered(im: Image, probe: (Text, bool), t: (Text, Source, Text))
    requires Fits(im)
  {
    t.0 == probe.0 && (t.1, t.2) in Lookup(im, probe.0) && (probe.1 || t.1.local)
  }

  predicate Asked(im: Image, probes: seq<(Text, bool)>, t: (Text, Source, Text))
    requires Fits(im)
  {
    exists probe <- probes :: Answered(im, probe, t)
  }

  lemma AskedLast(im: Image, probes: seq<(Text, bool)>, t: (Text, Source, Text))
    requires Fits(im) && probes != []
    ensures Asked(im, probes, t) <==> Asked(im, probes[..|probes| - 1], t) || Answered(im, probes[|probes| - 1], t)
  {
    var n := |probes| - 1;
    if Asked(im, probes, t) {
      var probe :| probe in probes && Answered(im, probe, t);
      if probe != probes[n] { assert probe in probes[..n]; }
    }
    if Asked(im, probes[..n], t) {
      var probe :| probe in probes[..n] && Answered(im, probe, t);
      assert probe in probes;
    }
    if Answered(im, probes[n], t) { assert probes[n] in probes; }
  }

  lemma {:induction false} AnswersMean(im: Image, probes: seq<(Text, bool)>, t: (Text, Source, Text))
    requires Fits(im)
    ensures t in Answers(im, probes) <==> Asked(im, probes, t)
  {
    if probes != [] {
      var n := |probes| - 1;
      AnswersMean(im, probes[..n], t);
      KeptMeans(probes[n].0, probes[n].1, Lookup(im, probes[n].0), t);
      AskedLast(im, probes, t);
    }
  }

  lemma JoinOne(a: seq<Text>, b: seq<Text>)
    requires Labels(a) && Labels(b) && Join(a) == Join(b)
    ensures a == b
  {
    SplitJoin(a);
    SplitJoin(b);
  }

  const STARRED: Text := [STAR]

  lemma SubtreeLabels(labels: seq<Text>)
    requires Labels(labels)
    ensures Labels([STARRED] + labels) && Subtree(labels) == Join([STARRED] + labels)
  {
    assert ([STARRED] + labels)[1..] == labels;
  }

  lemma PrefixLabels(host: Text)
    requires Prefixed(host)
    ensures |Split(host)| > 1 && Split(host)[0] == WWW
  {
    SplitFirst(WWW, host[4..]);
    assert host == host[..4] + host[4..];
  }

  lemma NotPrefixed(labels: seq<Text>)
    requires Labels(labels) && (|labels| == 1 || labels[0] != WWW)
    ensures !Prefixed(Join(labels))
  {
    SplitJoin(labels);
    if Prefixed(Join(labels)) { PrefixLabels(Join(labels)); }
  }

  /** The alias as labels: without a leading www, or with one. */
  lemma AliasLabels(labels: seq<Text>)
    requires Labels(labels)
    ensures var alias := if |labels| > 1 && labels[0] == WWW then labels[1..] else [WWW] + labels;
            Labels(alias) && WwwAlias(Join(labels)) == Join(alias)
  {
    var host := Join(labels);
    if |labels| > 1 && labels[0] == WWW {
      assert host == WWW + [DOT] + Join(labels[1..]);
      assert host[..4] == WWW + [DOT] && host[4..] == Join(labels[1..]);
    } else {
      NotPrefixed(labels);
      assert ([WWW] + labels)[1..] == labels;
      assert Join([WWW] + labels) == WWW + [DOT] + Join(labels);
    }
  }

  function AliasOf(labels: seq<Text>): seq<Text> {
    if |labels| > 1 && labels[0] == WWW then labels[1..] else [WWW] + labels
  }

  /** The host's own labels spell the subtree key of the name, itself or through its alias. */
  predicate Spells(labels: seq<Text>, name: seq<Text>, boundary: seq<Text>) {
    || labels == [STARRED] + name
    || (labels == [WWW, STARRED] + name && |name| + 1 >= |boundary|)
  }

  lemma FloorOf(labels: seq<Text>)
    requires Labels(labels)
    ensures Floor(Some(Join(labels))) == |labels|
  {
    SplitJoin(labels);
    if Join(labels) == [] { assert Split([]) == [[]]; }
  }

  lemma BoundaryLabels(l: Rules, labels: seq<Text>)
    requires Labels(labels)
    ensures Labels(Boundary(Some(l), labels)) && |Boundary(Some(l), labels)| <= |labels|
  {
  }

  lemma DotsOf(labels: seq<Text>)
    requires Labels(labels)
    ensures Dots(Join(labels)) + 1 == |labels|
  {
    DotsOfLabels(Join(labels));
    SplitJoin(labels);
  }

  /** No probe of a host is owned and names a public suffix above it. */
  lemma ProbeSilent(labels: seq<Text>, name: seq<Text>, boundary: seq<Text>, i: nat)
    requires Labels(labels) && Labels(name) && Labels(boundary) && Below(labels, name) && |boundary| > |name|
    requires !Spells(labels, name, boundary) && i < |Probes(Join(labels), Some(Join(boundary)))|
    requires var key := Probes(Join(labels), Some(Join(boundary)))[i].0; key == Join(name) || key == Subtree(name)
    ensures !Probes(Join(labels), Some(Join(boundary)))[i].1
  {
    SplitJoin(labels);
    ProbeAt(labels, boundary, i);
    if i == 0 {
      HostSilent(labels, name);
    } else if i == 1 {
      AliasSilent(labels, name, |boundary|);
    } else {
      SubtreeSilent(labels, name, i - 2);
    }
  }

  /** What each key asked for a host is, in labels. */
  lemma ProbeAt(labels: seq<Text>, boundary: seq<Text>, i: nat)
    requires Labels(labels) && Labels(boundary) && i < |labels| + 2
    ensures Labels(AliasOf(labels)) && |Probes(Join(labels), Some(Join(boundary)))| == |labels| + 2
    ensures Probes(Join(labels), Some(Join(boundary)))[i]
            == if i == 0 then (Join(labels), true)
               else if i == 1 then (Join(AliasOf(labels)), |AliasOf(labels)| >= |boundary|)
               else (Subtree(labels[i - 2..]), |labels| - (i - 2) >= |boundary|)
  {
    FloorOf(boundary);
    SplitJoin(labels);
    AliasLabels(labels);
    DotsOf(AliasOf(labels));
  }

  lemma HostSilent(labels: seq<Text>, name: seq<Text>)
    requires Labels(labels) && Labels(name) && Below(labels, name) && labels != [STARRED] + name
    ensures Join(labels) != Join(name) && Join(labels) != Subtree(name)
  {
    SubtreeLabels(name);
    if Join(labels) == Join(name) { JoinOne(labels, name); }
    if Join(labels) == Subtree(name) { JoinOne(labels, [STARRED] + name); }
  }

  lemma AliasSilent(labels: seq<Text>, name: seq<Text>, floor: nat)
    requires Labels(labels) && Labels(name) && Below(labels, name) && Labels(AliasOf(labels))
    requires Join(AliasOf(labels)) == Join(name) || Join(AliasOf(labels)) == Subtree(name)
    ensures AliasOf(labels) == name || labels == [WWW, STARRED] + name
  {
    var alias := AliasOf(labels);
    SubtreeLabels(name);
    if Join(alias) == Join(name) {
      JoinOne(alias, name);
    } else {
      JoinOne(alias, [STARRED] + name);
      assert alias[0] == STARRED;
      assert alias == labels[1..];
      assert labels == [labels[0]] + labels[1..];
    }
  }

  lemma SubtreeSilent(labels: seq<Text>, name: seq<Text>, i: nat)
    requires Labels(labels) && Labels(name) && Below(labels, name) && i < |labels|
    requires Subtree(labels[i..]) == Join(name) || Subtree(labels[i..]) == Subtree(name)
    ensures |labels| - i <= |name|
  {
    SubtreeLabels(labels[i..]);
    SubtreeLabels(name);
    if Subtree(labels[i..]) == Join(name) {
      JoinOne([STARRED] + labels[i..], name);
    } else {
      JoinOne([STARRED] + labels[i..], [STARRED] + name);
    }
  }

  lemma MatchedAsked(im: Image, host: Text, boundary: Option<Text>, t: (Text, Source, Text))
    requires Fits(im)
    ensures t in Matched(im, host, boundary) <==> host != [] && Asked(im, Probes(host, boundary), t)
  {
    AnswersMean(im, Probes(host, boundary), t);
  }

  lemma SilentAbove(im: Image, labels: seq<Text>, name: seq<Text>, boundary: seq<Text>, t: (Text, Source, Text))
    requires Fits(im) && Labels(labels) && Labels(name) && Labels(boundary) && Below(labels, name)
    requires |boundary| > |name|
    requires !Spells(labels, name, boundary) && Asked(im, Probes(Join(labels), Some(Join(boundary))), t)
    requires t.0 == Join(name) || t.0 == Subtree(name)
    ensures t.1.local
  {
    var probes := Probes(Join(labels), Some(Join(boundary)));
    var probe :| probe in probes && Answered(im, probe, t);
    var i :| 0 <= i < |probes| && probes[i] == probe;
    ProbeSilent(labels, name, boundary, i);
  }

  /** A list of somebody else's that names a public suffix, exact or with all
      below it, says nothing of any host strictly below that suffix. */
  lemma SuffixSilent(im: Image, l: Rules, labels: seq<Text>, name: seq<Text>, t: (Text, Source, Text))
    requires Fits(im) && Labels(labels) && Labels(name) && IsPublic(l, name) && Below(labels, name)
    requires !Spells(labels, name, Boundary(Some(l), labels))
    requires t in Matched(im, Join(labels), Some(Join(Boundary(Some(l), labels))))
    requires t.0 == Join(name) || t.0 == Subtree(name)
    ensures t.1.local
  {
    var boundary := Boundary(Some(l), labels);
    BoundaryBelow(l, labels, name);
    BoundaryLabels(l, labels);
    MatchedAsked(im, Join(labels), Some(Join(boundary)), t);
    SilentAbove(im, labels, name, boundary, t);
  }

  lemma SpelledProbe(labels: seq<Text>, name: seq<Text>, boundary: seq<Text>)
    requires Labels(labels) && Labels(name) && Labels(boundary) && |boundary| <= |labels|
    requires Spells(labels, name, boundary)
    ensures (Subtree(name), true) in Probes(Join(labels), Some(Join(boundary)))
  {
    var probes := Probes(Join(labels), Some(Join(boundary)));
    SubtreeLabels(name);
    FloorOf(boundary);
    SplitJoin(labels);
    AliasLabels(labels);
    DotsOf(AliasOf(labels));
    if labels == [STARRED] + name {
      assert probes[0] == (Subtree(name), true);
    } else {
      assert AliasOf(labels) == [STARRED] + name;
      assert probes[1] == (Subtree(name), true);
    }
  }

  /** And only a host whose own labels spell the suffix's subtree key hears
      such a list: it takes the key for its own name, or its alias's. */
  lemma SpelledSpeaks(im: Image, l: Rules, labels: seq<Text>, name: seq<Text>, claim: (Source, Text))
    requires Fits(im) && Labels(labels) && Labels(name) && IsPublic(l, name) && Below(labels, name)
    requires Spells(labels, name, Boundary(Some(l), labels))
    requires claim in Lookup(im, Subtree(name))
    ensures (Subtree(name), claim.0, claim.1) in Matched(im, Join(labels), Some(Join(Boundary(Some(l), labels))))
  {
    var boundary := Boundary(Some(l), labels);
    var probes := Probes(Join(labels), Some(Join(boundary)));
    var t := (Subtree(name), claim.0, claim.1);
    BoundaryLabels(l, labels);
    SpelledProbe(labels, name, boundary);
    assert Answered(im, (Subtree(name), true), t);
    AnswersMean(im, probes, t);
    SplitJoin(labels);
  }

  // -- exactly who is heard -----------------------------------------------------------

  /** The host without its leading www, or with one. */
  function OtherSpelling(labels: seq<Text>): seq<Text>
    requires |labels| > 0
  {
    if |labels| > 1 && labels[0] == Ascii("www") then labels[1..] else [Ascii("www")] + labels
  }

  /** The key is the host's own name. */
  predicate OwnName(labels: seq<Text>, key: Text)
    requires |labels| > 0
  {
    key == Join(labels)
  }

  /** The key is its other spelling, of so many labels at least. */
  predicate OtherName(labels: seq<Text>, key: Text, floor: nat)
    requires |labels| > 0
  {
    key == Join(OtherSpelling(labels)) && |OtherSpelling(labels)| >= floor
  }

  /** The key covers the host or a name above it of so many labels at least, with all below. */
  ghost predicate CoveringName(labels: seq<Text>, key: Text, floor: nat) {
    exists i | 0 <= i < |labels| :: key == Ascii("*.") + Join(labels[i..]) && |labels| - i >= floor
  }

  ghost predicate Covered(labels: seq<Text>, key: Text, floor: nat)
    requires |labels| > 0
  {
    OwnName(labels, key) || OtherName(labels, key, floor) || CoveringName(labels, key, floor)
  }

  lemma Spelling(labels: seq<Text>)
    requires |labels| > 0
    ensures OtherSpelling(labels) == AliasOf(labels)
  {
    assert Ascii("www") == WWW;
  }

  lemma SubtreeIs(labels: seq<Text>)
    requires |labels| > 0
    ensures Subtree(labels) == Ascii("*.") + Join(labels)
  {
    var star := Ascii("*.");
    assert |star| == 2 && star[0] == STAR && star[1] == DOT;
    assert star == [STAR, DOT];
  }

  /** What each key asked is, by these names. */
  lemma KeyCovers(labels: seq<Text>, bound: nat, i: nat, key: Text, owned: bool, floor: nat)
    requires |labels| > 0 && i < |labels| + 2
    requires i == 0 ==> key == Join(labels)
    requires i == 1 ==> key == Join(AliasOf(labels)) && owned == (|AliasOf(labels)| >= bound)
    requires i >= 2 ==> key == Subtree(labels[i - 2..]) && owned == (|labels| - (i - 2) >= bound)
    requires if owned then floor <= bound else floor == 0
    ensures Covered(labels, key, floor)
  {
    Spelling(labels);
    if i == 0 {
      assert OwnName(labels, key);
    } else if i == 1 {
      assert OtherName(labels, key, floor);
    } else {
      SubtreeIs(labels[i - 2..]);
      CoveringAt(labels, key, floor, i - 2);
    }
  }

  lemma CoveringAt(labels: seq<Text>, key: Text, floor: nat, k: nat)
    requires k < |labels| && key == Ascii("*.") + Join(labels[k..]) && |labels| - k >= floor
    ensures CoveringName(labels, key, floor)
  {
  }

  /** And each such name is asked for. */
  lemma CoveredProbe(labels: seq<Text>, boundary: seq<Text>, key: Text, local: bool) returns (i: nat)
    requires Labels(labels) && Labels(boundary) && Covered(labels, key, if local then 0 else |boundary|)
    ensures i < |Probes(Join(labels), Some(Join(boundary)))|
    ensures var probe := Probes(Join(labels), Some(Join(boundary)))[i]; probe.0 == key && (probe.1 || local)
  {
    var floor := if local then 0 else |boundary|;
    Spelling(labels);
    if OwnName(labels, key) {
      i := 0;
    } else if OtherName(labels, key, floor) {
      i := 1;
    } else {
      var k :| 0 <= k < |labels| && key == Ascii("*.") + Join(labels[k..]) && |labels| - k >= floor;
      SubtreeIs(labels[k..]);
      i := k + 2;
    }
    ProbeAt(labels, boundary, i);
  }

  lemma CoveredAsked(im: Image, labels: seq<Text>, boundary: seq<Text>, probes: seq<(Text, bool)>,
                     t: (Text, Source, Text))
    requires Fits(im) && Labels(labels) && Labels(boundary) && probes == Probes(Join(labels), Some(Join(boundary)))
    requires (t.1, t.2) in Lookup(im, t.0) && Covered(labels, t.0, if t.1.local then 0 else |boundary|)
    ensures Asked(im, probes, t)
  {
    var i := CoveredProbe(labels, boundary, t.0, t.1.local);
    assert Answered(im, probes[i], t);
  }

  lemma AskedAt(im: Image, probes: seq<(Text, bool)>, t: (Text, Source, Text)) returns (i: nat)
    requires Fits(im) && Asked(im, probes, t)
    ensures i < |probes| && Answered(im, probes[i], t)
  {
    var probe :| probe in probes && Answered(im, probe, t);
    i :| 0 <= i < |probes| && probes[i] == probe;
  }

  lemma AnsweredCovered(im: Image, labels: seq<Text>, boundary: seq<Text>, i: nat, t: (Text, Source, Text))
    requires Fits(im) && Labels(labels) && Labels(boundary) && i < |labels| + 2
    requires i < |Probes(Join(labels), Some(Join(boundary)))|
    requires Answered(im, Probes(Join(labels), Some(Join(boundary)))[i], t)
    ensures (t.1, t.2) in Lookup(im, t.0) && Covered(labels, t.0, if t.1.local then 0 else |boundary|)
  {
    ProbeAt(labels, boundary, i);
    var probe := Probes(Join(labels), Some(Join(boundary)))[i];
    KeyCovers(labels, |boundary|, i, t.0, probe.1, if t.1.local then 0 else |boundary|);
  }

  /** A claim of the file is heard for a host if and only if it is of the host's
      own name, or of its other spelling or a covering name: of no fewer labels
      than the name somebody registered has, unless the list is a local one. */
  lemma HeardExactly(im: Image, labels: seq<Text>, boundary: seq<Text>, t: (Text, Source, Text))
    requires Fits(im) && Labels(labels) && Labels(boundary) && Join(labels) != []
    ensures t in Matched(im, Join(labels), Some(Join(boundary)))
            <==> (t.1, t.2) in Lookup(im, t.0) && Covered(labels, t.0, if t.1.local then 0 else |boundary|)
  {
    MatchedAsked(im, Join(labels), Some(Join(boundary)), t);
    var probes := Probes(Join(labels), Some(Join(boundary)));
    if Asked(im, probes, t) {
      var i := AskedAt(im, probes, t);
      SplitJoin(labels);
      AnsweredCovered(im, labels, boundary, i, t);
    } else if (t.1, t.2) in Lookup(im, t.0) && Covered(labels, t.0, if t.1.local then 0 else |boundary|) {
      CoveredAsked(im, labels, boundary, probes, t);
    }
  }
}
