/** Flattening and separator-joining of sequences of sequences: the shapes in
    which the printer lays out block statements, call arguments and function
    parameters. */
module Sequences {

  /** The parts one after another. */
  function Concat<T>(parts: seq<seq<T>>): seq<T>
  {
    if |parts| == 0 then [] else parts[0] + Concat(parts[1..])
  }

  /** The parts with `sep` between each two neighbours. */
  function Join<T>(sep: seq<T>, parts: seq<seq<T>>): seq<T>
  {
    if |parts| == 0 then []
    else if |parts| == 1 then parts[0]
    else parts[0] + sep + Join(sep, parts[1..])
  }

  /** Every part with `sep` in front of it. */
  function Prefixed<T>(sep: seq<T>, parts: seq<seq<T>>): (r: seq<seq<T>>)
    ensures |r| == |parts|
    ensures forall i :: 0 <= i < |parts| ==> r[i] == sep + parts[i]
  {
    if |parts| == 0 then [] else [sep + parts[0]] + Prefixed(sep, parts[1..])
  }

  function TotalLength<T>(parts: seq<seq<T>>): nat
  {
    if |parts| == 0 then 0 else |parts[0]| + TotalLength(parts[1..])
  }

  /** Appending `b` then `c` is appending `b + c`. */
  lemma AppendAssoc<T>(a: seq<T>, b: seq<T>, c: seq<T>)
    ensures a + b + c == a + (b + c)
  {
  }

  /** Three, four and five appends in a row are one append of the pieces. */
  lemma Append3<T>(r: seq<T>, a: seq<T>, b: seq<T>, c: seq<T>)
    ensures r + a + b + c == r + (a + b + c)
  {
    AppendAssoc(r, a + b, c);
    AppendAssoc(r, a, b);
  }

  lemma Append4<T>(r: seq<T>, a: seq<T>, b: seq<T>, c: seq<T>, d: seq<T>)
    ensures r + a + b + c + d == r + (a + b + c + d)
  {
    Append3(r, a, b, c);
    AppendAssoc(r, a + b + c, d);
  }

  lemma Append5<T>(r: seq<T>, a: seq<T>, b: seq<T>, c: seq<T>, d: seq<T>, e: seq<T>)
    ensures r + a + b + c + d + e == r + (a + b + c + d + e)
  {
    Append4(r, a, b, c, d);
    AppendAssoc(r, a + b + c + d, e);
  }

  /** Appending one more part to a concatenation. */
  lemma {:induction false} ConcatSnoc<T>(parts: seq<seq<T>>, x: seq<T>)
    ensures Concat(parts + [x]) == Concat(parts) + x
  {
    if |parts| != 0 {
      assert (parts + [x])[1..] == parts[1..] + [x];
      ConcatSnoc(parts[1..], x);
    }
  }

  /** Concatenation distributes over splitting the list of parts. */
  lemma {:induction false} ConcatAppend<T>(a: seq<seq<T>>, b: seq<seq<T>>)
    ensures Concat(a + b) == Concat(a) + Concat(b)
  {
    if |a| != 0 {
      assert (a + b)[1..] == a[1..] + b;
      ConcatAppend(a[1..], b);
    } else {
      assert a + b == b;
    }
  }

  /** Part `i` sits between the concatenation of the parts before it and
      that of the parts after it. */
  lemma ConcatAt<T>(parts: seq<seq<T>>, i: nat)
    requires i < |parts|
    ensures Concat(parts) == Concat(parts[..i]) + parts[i] + Concat(parts[i + 1..])
  {
    assert parts == parts[..i] + ([parts[i]] + parts[i + 1..]);
    ConcatAppend(parts[..i], [parts[i]] + parts[i + 1..]);
    assert ([parts[i]] + parts[i + 1..])[1..] == parts[i + 1..];
  }

  /** Appending one more part to a joined sequence adds exactly one separator,
      and none when the sequence was empty. */
  lemma {:induction false} JoinSnoc<T>(sep: seq<T>, parts: seq<seq<T>>, x: seq<T>)
    ensures Join(sep, parts + [x]) == if parts == [] then x else Join(sep, parts) + sep + x
  {
    if |parts| > 1 {
      assert (parts + [x])[1..] == parts[1..] + [x];
      JoinSnoc(sep, parts[1..], x);
    }
  }

  /** A non-empty join is its first part followed by every later part, each
      preceded by one separator: no separator comes before the first part. */
  lemma {:induction false} JoinAsPrefixed<T>(sep: seq<T>, parts: seq<seq<T>>)
    requires |parts| >= 1
    ensures Join(sep, parts) == parts[0] + Concat(Prefixed(sep, parts[1..]))
  {
    if |parts| > 1 {
      JoinAsPrefixed(sep, parts[1..]);
      var rest := parts[1..];
      assert Prefixed(sep, rest) == [sep + rest[0]] + Prefixed(sep, rest[1..]);
      assert rest[1..] == parts[1..][1..];
    } else {
      assert Prefixed(sep, parts[1..]) == [];
    }
  }

  /** Joining n >= 1 parts inserts exactly n - 1 separators. */
  lemma {:induction false} JoinLength<T>(sep: seq<T>, parts: seq<seq<T>>)
    requires |parts| >= 1
    ensures |Join(sep, parts)| == TotalLength(parts) + (|parts| - 1) * |sep|
  {
    if |parts| > 1 {
      JoinLength(sep, parts[1..]);
      assert (|parts| - 1) * |sep| == (|parts| - 2) * |sep| + |sep|;
    }
  }
}
