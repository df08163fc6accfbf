/** Where the name somebody registered ends: the walk over the Public Suffix List. */
module Psl {
  import opened Wrappers
  import opened Names

  /** The list's rules as labels; the rule for every child of a name is kept under that name. */
  datatype Rules = Rules(rules: set<seq<Text>>, wildcards: set<seq<Text>>, exceptions: set<seq<Text>>)

  predicate Excepted(l: Rules, labels: seq<Text>, i: nat)
    requires i < |labels|
  {
    labels[i..] in l.exceptions
  }

  predicate Ruled(l: Rules, labels: seq<Text>, i: nat)
    requires i < |labels|
  {
    labels[i..] in l.rules || (i + 1 < |labels| && labels[i + 1..] in l.wildcards)
  }

  /** How many labels stand left of the public suffix, as the list defines it:
      an exception prevails and its suffix is it without its first label,
      otherwise the rule of most labels, otherwise the last label. */
  ghost predicate Cuts(l: Rules, labels: seq<Text>, cut: nat)
    requires |labels| > 0
  {
    if exists i: nat | i < |labels| :: Excepted(l, labels, i) then
      && 0 < cut <= |labels| && Excepted(l, labels, cut - 1)
      && forall i: nat | i < cut - 1 :: !Excepted(l, labels, i)
    else if exists i: nat | i < |labels| :: Ruled(l, labels, i) then
      && cut < |labels| && Ruled(l, labels, cut)
      && forall i: nat | i < cut :: !Ruled(l, labels, i)
    else cut == |labels| - 1
  }

  function FirstException(l: Rules, labels: seq<Text>, i: nat): (first: nat)
    requires i <= |labels|
    ensures i <= first <= |labels| && (first < |labels| ==> Excepted(l, labels, first))
    ensures forall j: nat | i <= j < first :: !Excepted(l, labels, j)
    decreases |labels| - i
  {
    if i == |labels| || Excepted(l, labels, i) then i else FirstException(l, labels, i + 1)
  }

  function FirstRule(l: Rules, labels: seq<Text>, i: nat): (first: nat)
    requires i <= |labels|
    ensures i <= first <= |labels| && (first < |labels| ==> Ruled(l, labels, first))
    ensures forall j: nat | i <= j < first :: !Ruled(l, labels, j)
    decreases |labels| - i
  {
    if i == |labels| || Ruled(l, labels, i) then i else FirstRule(l, labels, i + 1)
  }

  function Cut(l: Rules, labels: seq<Text>): (cut: nat)
    requires |labels| > 0
    ensures cut <= |labels| && Cuts(l, labels, cut)
  {
    var e := FirstException(l, labels, 0);
    var r := FirstRule(l, labels, 0);
    if e < |labels| then e + 1 else if r < |labels| then r else |labels| - 1
  }

  /** The public suffix of a host given by its labels; no labels are left of a one-label exception. */
  method PublicSuffix(l: Rules, labels: seq<Text>) returns (suffix: seq<Text>)
    requires |labels| > 0
    ensures suffix == labels[Cut(l, labels)..]
  {
    for i := 0 to |labels|
      invariant FirstException(l, labels, 0) == FirstException(l, labels, i)
    {
      if labels[i..] in l.exceptions { return labels[i + 1..]; }
    }
    for i := 0 to |labels|
      invariant FirstException(l, labels, 0) == |labels| && FirstRule(l, labels, 0) == FirstRule(l, labels, i)
    {
      if labels[i..] in l.rules { return labels[i..]; }
      if i + 1 < |labels| && labels[i + 1..] in l.wildcards { return labels[i..]; }
    }
    suffix := labels[|labels| - 1..];
  }

  /** The labels of the suffix, the empty text counting as one. */
  function SuffixLabels(l: Rules, labels: seq<Text>): nat
    requires |labels| > 0
  {
    Max(1, |labels| - Cut(l, labels))
  }

  /** The suffix and the one label left of it, or the last two labels when there is no list. */
  function Registrable(list: Option<Rules>, labels: seq<Text>): (domain: Option<seq<Text>>)
    requires |labels| > 0
    ensures domain.Some? ==> exists k: nat :: k < |labels| && domain.value == labels[k..]
  {
    var n := match list case None => 1 case Some(l) => SuffixLabels(l, labels);
    if |labels| <= n then None else Some(labels[|labels| - n - 1..])
  }

  /** A registrable domain is its own registrable domain. */
  lemma RegistrableTwice(list: Option<Rules>, labels: seq<Text>)
    requires |labels| > 0 && Registrable(list, labels).Some?
    ensures var domain := Registrable(list, labels).value; |domain| > 0 && Registrable(list, domain) == Some(domain)
  {
    var domain := Registrable(list, labels).value;
    if list.Some? {
      var k := |labels| - |domain|;
      CutOf(list.value, labels, k);
    }
  }

  /** Cutting leading labels of a host changes its rules only by how far in they stand. */
  lemma SuffixRules(l: Rules, labels: seq<Text>, k: nat)
    requires k < |labels|
    ensures forall i: nat | i < |labels| - k :: Excepted(l, labels[k..], i) == Excepted(l, labels, k + i)
    ensures forall i: nat | i < |labels| - k :: Ruled(l, labels[k..], i) == Ruled(l, labels, k + i)
  {
    forall i: nat | i < |labels| - k
      ensures Excepted(l, labels[k..], i) == Excepted(l, labels, k + i)
      ensures Ruled(l, labels[k..], i) == Ruled(l, labels, k + i)
    {
      assert labels[k..][i..] == labels[k + i..];
      if i + 1 < |labels| - k { assert labels[k..][i + 1..] == labels[k + i + 1..]; }
    }
  }

  lemma CutOfException(l: Rules, labels: seq<Text>, k: nat)
    requires k < |labels| && k < Cut(l, labels) && exists i: nat | i < |labels| :: Excepted(l, labels, i)
    ensures Cut(l, labels[k..]) == Cut(l, labels) - k
  {
    SuffixRules(l, labels, k);
    var cut := Cut(l, labels);
    assert Excepted(l, labels[k..], cut - 1 - k);
    assert forall i: nat | i < cut - 1 - k :: !Excepted(l, labels[k..], i);
  }

  lemma CutOfRule(l: Rules, labels: seq<Text>, k: nat)
    requires k < |labels| && k <= Cut(l, labels) < |labels|
    requires forall i: nat | i < |labels| :: !Excepted(l, labels, i)
    ensures Cut(l, labels[k..]) == Cut(l, labels) - k
  {
    SuffixRules(l, labels, k);
    var cut := Cut(l, labels);
    assert forall i: nat | i < |labels| - k :: !Excepted(l, labels[k..], i);
    assert forall i: nat | i < cut - k :: !Ruled(l, labels[k..], i);
    if Ruled(l, labels, cut) { assert Ruled(l, labels[k..], cut - k); }
    else { assert forall i: nat | i < |labels| - k :: !Ruled(l, labels[k..], i); }
  }

  /** With the label left of its suffix, and no more, a host keeps the suffix. */
  lemma CutOf(l: Rules, labels: seq<Text>, k: nat)
    requires |labels| > 0 && k == |labels| - SuffixLabels(l, labels) - 1
    ensures SuffixLabels(l, labels[k..]) == SuffixLabels(l, labels)
  {
    if exists i: nat | i < |labels| :: Excepted(l, labels, i) { CutOfException(l, labels, k); }
    else { CutOfRule(l, labels, k); }
  }

  /** The registrable domain of a host, or the host itself when it is a public suffix. */
  function Boundary(list: Option<Rules>, labels: seq<Text>): seq<Text>
    requires |labels| > 0
  {
    match Registrable(list, labels)
    case Some(domain) => domain
    case None => labels
  }

  /** The name is a public suffix: nothing of it stands left of its suffix. */
  predicate IsPublic(l: Rules, name: seq<Text>) {
    |name| > 0 && Cut(l, name) == 0
  }

  predicate Below(labels: seq<Text>, name: seq<Text>) {
    |name| < |labels| && labels[|labels| - |name|..] == name
  }

  /** The boundary of a host below a public suffix lies below it too. */
  lemma BoundaryBelow(l: Rules, labels: seq<Text>, name: seq<Text>)
    requires IsPublic(l, name) && Below(labels, name)
    ensures |Boundary(Some(l), labels)| > |name|
  {
    var k := |labels| - |name|;
    SuffixRules(l, labels, k);
    var cut := Cut(l, labels);
    assert forall i: nat | i < |name| :: !Excepted(l, name, i);
    forall j: nat | k <= j < |labels| ensures !Excepted(l, labels, j) {
      assert Excepted(l, name, j - k) == Excepted(l, labels, k + (j - k));
    }
    if exists i: nat | i < |labels| :: Excepted(l, labels, i) {
      assert cut - 1 < k;
    } else if exists i: nat | i < |name| :: Ruled(l, name, i) {
      assert Ruled(l, name, 0);
      assert Ruled(l, labels, k);
    }
  }

  // -- the rules, told by the names listed ------------------------------------------

  /** Some name the host ends in is an exception. */
  ghost predicate HasException(l: Rules, labels: seq<Text>) {
    exists i: nat | i < |labels| :: labels[i..] in l.exceptions
  }

  /** No rule has more labels of the host than stand right of this place. */
  ghost predicate NoLonger(l: Rules, labels: seq<Text>, k: nat)
    requires k <= |labels|
  {
    forall i: nat {:trigger labels[i..]} | i < k ::
      labels[i..] !in l.rules && (i + 1 == |labels| || labels[i + 1..] !in l.wildcards)
  }

  /** The suffix of a host under a rule of its own is the rule, unless a longer one or an exception prevails. */
  lemma RuleSuffix(l: Rules, labels: seq<Text>, k: nat)
    requires k < |labels| && labels[k..] in l.rules && !HasException(l, labels) && NoLonger(l, labels, k)
    ensures labels[Cut(l, labels)..] == labels[k..]
  {
    assert Ruled(l, labels, k);
  }

  /** Under a rule for every child of a name, it is the child: the name and one label more. */
  lemma WildcardSuffix(l: Rules, labels: seq<Text>, k: nat)
    requires k + 1 < |labels| && labels[k + 1..] in l.wildcards && !HasException(l, labels) && NoLonger(l, labels, k)
    ensures labels[Cut(l, labels)..] == labels[k..]
  {
    assert Ruled(l, labels, k);
  }

  /** An exception is no suffix itself, but what is left without its first label, whatever the rules. */
  lemma ExceptionSuffix(l: Rules, labels: seq<Text>, k: nat)
    requires k < |labels| && labels[k..] in l.exceptions && forall i: nat | i < k :: labels[i..] !in l.exceptions
    ensures labels[Cut(l, labels)..] == labels[k + 1..]
  {
    assert Excepted(l, labels, k);
  }

  /** Under no rule at all it is the last label. */
  lemma UnlistedSuffix(l: Rules, labels: seq<Text>)
    requires |labels| > 0 && !HasException(l, labels) && NoLonger(l, labels, |labels|)
    ensures labels[Cut(l, labels)..] == [labels[|labels| - 1]]
  {
  }

  /** What somebody registered is the suffix and one label more, and nothing where no label is left. */
  lemma RegistrableIs(l: Rules, labels: seq<Text>)
    requires |labels| > 0 && Cut(l, labels) < |labels|
    ensures Registrable(Some(l), labels)
            == if Cut(l, labels) == 0 then None else Some(labels[Cut(l, labels) - 1..])
    ensures Registrable(None, labels) == if |labels| == 1 then None else Some(labels[|labels| - 2..])
  {
  }
}
