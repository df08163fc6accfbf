/** Whether two ISM index patterns, with * as their only wildcard, can match
    one name: libtb.retention.patterns_overlap. */
module Patterns {

  /** What a pattern means: * stands for any characters, none included. */
  predicate Matches(pattern: string, name: string)
    decreases |pattern| + |name|
  {
    if pattern == "" then name == ""
    else if pattern[0] == '*' then
      Matches(pattern[1..], name) || (name != "" && Matches(pattern, name[1..]))
    else name != "" && name[0] == pattern[0] && Matches(pattern[1..], name[1..])
  }

  /** The recursion of patterns_overlap without its memo, on what is left of each pattern. */
  predicate Overlap(a: string, b: string)
    decreases |a| + |b|
  {
    if a == "" && b == "" then true
    else if a != "" && a[0] == '*' then Overlap(a[1..], b) || (b != "" && Overlap(a, b[1..]))
    else if b != "" && b[0] == '*' then Overlap(a, b[1..]) || (a != "" && Overlap(a[1..], b))
    else a != "" && b != "" && a[0] == b[0] && Overlap(a[1..], b[1..])
  }

  /** A name both patterns match, built along the recursion. */
  lemma {:induction false} Common(a: string, b: string) returns (name: string)
    requires Overlap(a, b)
    ensures Matches(a, name) && Matches(b, name)
    decreases |a| + |b|
  {
    if a == "" && b == "" {
      name := "";
    } else if a != "" && a[0] == '*' {
      if Overlap(a[1..], b) {
        name := Common(a[1..], b);
      } else {
        name := Common(a, b[1..]);
        if b[0] != '*' { name := Absorb(a, name, b[0]); }
      }
    } else if b != "" && b[0] == '*' {
      if Overlap(a, b[1..]) {
        name := Common(a, b[1..]);
      } else {
        name := Common(a[1..], b);
        name := Absorb(b, name, a[0]);
      }
    } else {
      name := Common(a[1..], b[1..]);
      var longer := [a[0]] + name;
      assert longer[1..] == name;
      name := longer;
    }
  }

  /** A leading * takes one character more. */
  lemma Absorb(pattern: string, name: string, c: char) returns (longer: string)
    requires pattern != "" && pattern[0] == '*' && Matches(pattern, name)
    ensures longer == [c] + name && longer[1..] == name && Matches(pattern, longer)
  {
    longer := [c] + name;
    assert longer[1..] == name;
  }

  lemma {:induction false} Overlapping(a: string, b: string, name: string)
    requires Matches(a, name) && Matches(b, name)
    ensures Overlap(a, b)
    decreases |a| + |b| + |name|
  {
    if a != "" && a[0] == '*' {
      if Matches(a[1..], name) {
        Overlapping(a[1..], b, name);
      } else if b[0] == '*' && !Matches(b[1..], name) {
        Overlapping(a, b, name[1..]);
      } else {
        Overlapping(a, b[1..], if b[0] == '*' then name else name[1..]);
      }
    } else if b != "" && b[0] == '*' {
      if Matches(b[1..], name) {
        Overlapping(a, b[1..], name);
      } else {
        Overlapping(a[1..], b, name[1..]);
      }
    } else if a != "" {
      Overlapping(a[1..], b[1..], name[1..]);
    }
  }

  /** Some name matches both. */
  ghost predicate Meet(a: string, b: string) {
    exists name: string :: Matches(a, name) && Matches(b, name)
  }

  /** Two patterns overlap exactly when some name matches both. */
  lemma OverlapExact(a: string, b: string)
    ensures Overlap(a, b) <==> Meet(a, b)
  {
    if Overlap(a, b) {
      var name := Common(a, b);
      assert Meet(a, b);
    }
    forall name | Matches(a, name) && Matches(b, name) ensures Overlap(a, b) {
      Overlapping(a, b, name);
    }
  }

  /** patterns_overlap(a, b): `seen` remembers the answer for each pair of
      positions, and holds False for those still being worked out. */
  ghost predicate Answer(a: string, b: string, i: nat, j: nat)
    requires i <= |a| && j <= |b|
  {
    Overlap(a[i..], b[j..])
  }

  /** The recursion in terms of positions. */
  lemma AnswerStep(a: string, b: string, i: nat, j: nat)
    requires i <= |a| && j <= |b|
    ensures Answer(a, b, i, j) <==>
              if i == |a| && j == |b| then true
              else if i < |a| && a[i] == '*' then Answer(a, b, i + 1, j) || (j < |b| && Answer(a, b, i, j + 1))
              else if j < |b| && b[j] == '*' then Answer(a, b, i, j + 1) || (i < |a| && Answer(a, b, i + 1, j))
              else i < |a| && j < |b| && a[i] == b[j] && Answer(a, b, i + 1, j + 1)
  {
    if i < |a| { assert a[i..][1..] == a[i + 1..]; }
    if j < |b| { assert b[j..][1..] == b[j + 1..]; }
  }

  class Matcher {
    const a: string
    const b: string
    var seen: map<(nat, nat), bool>

    constructor (a: string, b: string)
      ensures this.a == a && this.b == b && seen == map[]
    {
      this.a, this.b, seen := a, b, map[];
    }

    /** Every answer remembered this far along the two patterns is right. */
    ghost predicate Trusted(distance: nat)
      reads this
    {
      forall k <- seen :: k.0 <= |a| && k.1 <= |b| && (k.0 + k.1 >= distance ==> seen[k] == Answer(a, b, k.0, k.1))
    }

    ghost predicate Kept(before: map<(nat, nat), bool>, distance: nat)
      reads this
    {
      forall k: (nat, nat) :: k.0 + k.1 < distance ==>
        (k in seen <==> k in before) && (k in seen ==> seen[k] == before[k])
    }

    method Match(i: nat, j: nat) returns (result: bool)
      requires i <= |a| && j <= |b| && Trusted(i + j)
      modifies this
      ensures result == Answer(a, b, i, j)
      ensures Trusted(i + j) && Kept(old(seen), i + j)
      decreases |a| - i + |b| - j, 1
    {
      if (i, j) in seen {
        return seen[(i, j)];
      }
      seen := seen[(i, j) := false];
      result := Explore(i, j);
      seen := seen[(i, j) := result];
    }

    /** Works an answer out from those one character on. */
    method Explore(i: nat, j: nat) returns (result: bool)
      requires i <= |a| && j <= |b| && Trusted(i + j + 1)
      modifies this
      ensures result == Answer(a, b, i, j)
      ensures Trusted(i + j + 1) && Kept(old(seen), i + j + 1)
      decreases |a| - i + |b| - j, 0
    {
      AnswerStep(a, b, i, j);
      if i == |a| && j == |b| {
        result := true;
      } else if i < |a| && a[i] == '*' {
        result := Match(i + 1, j);
        if !result && j < |b| { result := Match(i, j + 1); }
      } else if j < |b| && b[j] == '*' {
        result := Match(i, j + 1);
        if !result && i < |a| { result := Match(i + 1, j); }
      } else if i < |a| && j < |b| && a[i] == b[j] {
        result := Match(i + 1, j + 1);
      } else {
        result := false;
      }
    }
  }

  method PatternsOverlap(a: string, b: string) returns (overlap: bool)
    ensures overlap <==> Meet(a, b)
  {
    var matcher := new Matcher(a, b);
    overlap := matcher.Match(0, 0);
    assert a[0..] == a && b[0..] == b;
    OverlapExact(a, b);
  }
}
