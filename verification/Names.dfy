/** Host names as the text of an index: UTF-8 bytes, read as labels between dots. */
module Names {

  type Byte = b: int | 0 <= b < 256

  type Text = seq<Byte>

  const DOT: Byte := 46
  const STAR: Byte := 42
  const WWW: Text := [119, 119, 119]

  /** The bytes of a plain word. */
  function Ascii(s: string): Text {
    seq(|s|, i requires 0 <= i < |s| => s[i] as int % 256)
  }

  predicate DotFree(part: Text) {
    DOT !in part
  }

  /** A host or a key as labels: at least one, and no dot inside one. */
  predicate Labels(labels: seq<Text>) {
    |labels| > 0 && forall i | 0 <= i < |labels| :: DotFree(labels[i])
  }

  /** The text cut at every dot; the empty text is one empty label. */
  function Split(s: Text): (labels: seq<Text>)
    ensures Labels(labels)
  {
    if s == [] then [[]]
    else
      var rest := Split(s[1..]);
      if s[0] == DOT then [[]] + rest else assert DotFree(rest[0]); [[s[0]] + rest[0]] + rest[1..]
  }

  function Join(labels: seq<Text>): Text
    requires |labels| > 0
  {
    if |labels| == 1 then labels[0] else labels[0] + [DOT] + Join(labels[1..])
  }

  lemma {:induction false} JoinSplit(s: Text)
    ensures Join(Split(s)) == s
  {
    if s != [] {
      JoinSplit(s[1..]);
      var rest := Split(s[1..]);
      if s[0] == DOT {
        assert ([[]] + rest)[1..] == rest;
        assert s == [DOT] + s[1..];
      } else {
        var all := [[s[0]] + rest[0]] + rest[1..];
        assert all[1..] == rest[1..];
        assert s == [s[0]] + s[1..];
      }
    }
  }

  lemma {:induction false} SplitLabel(part: Text)
    requires DotFree(part)
    ensures Split(part) == [part]
  {
    if part != [] {
      SplitLabel(part[1..]);
      assert part == [part[0]] + part[1..];
    }
  }

  lemma {:induction false} SplitFirst(part: Text, rest: Text)
    requires DotFree(part)
    ensures Split(part + [DOT] + rest) == [part] + Split(rest)
  {
    var s := part + [DOT] + rest;
    if part == [] {
      assert s[1..] == rest;
    } else {
      SplitFirst(part[1..], rest);
      assert s[1..] == part[1..] + [DOT] + rest;
      assert part == [part[0]] + part[1..];
    }
  }

  lemma {:induction false} SplitJoin(labels: seq<Text>)
    requires Labels(labels)
    ensures Split(Join(labels)) == labels
  {
    if |labels| == 1 {
      SplitLabel(labels[0]);
    } else {
      SplitJoin(labels[1..]);
      SplitFirst(labels[0], Join(labels[1..]));
    }
  }

  function Reverse(labels: seq<Text>): (r: seq<Text>)
    ensures |r| == |labels| && forall i | 0 <= i < |r| :: r[i] == labels[|labels| - 1 - i]
  {
    seq(|labels|, i requires 0 <= i < |labels| => labels[|labels| - 1 - i])
  }

  /** www.example.com as com.example.www. */
  function ReverseLabels(s: Text): Text {
    Join(Reverse(Split(s)))
  }

  /** Reversing twice gives the name back, so no two keys are stored under one name. */
  lemma ReverseTwice(s: Text)
    ensures ReverseLabels(ReverseLabels(s)) == s
  {
    var labels := Split(s);
    SplitJoin(Reverse(labels));
    assert Reverse(Reverse(labels)) == labels;
    JoinSplit(s);
  }

  // -- the order of the index -----------------------------------------------

  /** Byte strings in the order they are compared in. */
  predicate Less(a: Text, b: Text) {
    if b == [] then false
    else if a == [] then true
    else a[0] < b[0] || (a[0] == b[0] && Less(a[1..], b[1..]))
  }

  lemma {:induction false} LessTotal(a: Text, b: Text)
    ensures Less(a, b) || a == b || Less(b, a)
  {
    if a != [] && b != [] && a[0] == b[0] {
      LessTotal(a[1..], b[1..]);
      assert a == [a[0]] + a[1..] && b == [b[0]] + b[1..];
    }
  }

  lemma {:induction false} LessTransitive(a: Text, b: Text, c: Text)
    requires Less(a, b) && Less(b, c)
    ensures Less(a, c)
  {
    if a != [] && a[0] == b[0] == c[0] { LessTransitive(a[1..], b[1..], c[1..]); }
  }

  lemma {:induction false} LessOneWay(a: Text, b: Text)
    requires Less(a, b)
    ensures a != b && !Less(b, a)
  {
    if a != [] && a[0] == b[0] { LessOneWay(a[1..], b[1..]); }
  }
}
