/** Sequence helpers with the meaning of Swift's `compactMap` and
    `components(separatedBy:)`. */
module Lists {
  import opened Options

  /** `xs.compactMap(f)`: the values `f` returns for the elements of `xs`, in
      order, with every `None` dropped. */
  function CompactMap<A, B>(xs: seq<A>, f: A --> Option<B>): (ys: seq<B>)
    requires forall i :: 0 <= i < |xs| ==> f.requires(xs[i])
    ensures |ys| <= |xs|
    ensures forall j :: 0 <= j < |ys| ==> exists i :: 0 <= i < |xs| && f(xs[i]) == Some(ys[j])
  {
    if xs == [] then []
    else
      var rest := CompactMap(xs[1..], f);
      assert forall j :: 0 <= j < |rest| ==> exists i :: 1 <= i < |xs| && f(xs[i]) == Some(rest[j]) by {
        forall j | 0 <= j < |rest| ensures exists i :: 1 <= i < |xs| && f(xs[i]) == Some(rest[j]) {
          var i' :| 0 <= i' < |xs[1..]| && f(xs[1..][i']) == Some(rest[j]);
          assert f(xs[i' + 1]) == Some(rest[j]);
        }
      }
      match f(xs[0])
      case Some(y) => [y] + rest
      case None => rest
  }

  /** compactMap works element by element: on a concatenation it is the
      concatenation of the results, so the survivors keep their order. */
  lemma {:induction false} CompactMapAppend<A, B>(xs: seq<A>, zs: seq<A>, f: A --> Option<B>)
    requires forall i :: 0 <= i < |xs| ==> f.requires(xs[i])
    requires forall i :: 0 <= i < |zs| ==> f.requires(zs[i])
    ensures forall i :: 0 <= i < |xs + zs| ==> f.requires((xs + zs)[i])
    ensures CompactMap(xs + zs, f) == CompactMap(xs, f) + CompactMap(zs, f)
  {
    if xs == [] {
      assert xs + zs == zs;
    } else {
      assert (xs + zs)[1..] == xs[1..] + zs;
      CompactMapAppend(xs[1..], zs, f);
    }
  }

  /** When nothing is dropped, compactMap is a plain map. */
  lemma {:induction false} CompactMapKeepsAll<A, B>(xs: seq<A>, f: A --> Option<B>)
    requires forall i :: 0 <= i < |xs| ==> f.requires(xs[i]) && f(xs[i]).Some?
    ensures |CompactMap(xs, f)| == |xs|
    ensures forall i :: 0 <= i < |xs| ==> CompactMap(xs, f)[i] == f(xs[i]).value
  {
    if xs != [] {
      CompactMapKeepsAll(xs[1..], f);
    }
  }

  /** compactMap of one element. */
  lemma CompactMapSingle<A, B>(x: A, f: A --> Option<B>)
    requires f.requires(x)
    ensures CompactMap([x], f) == if f(x).Some? then [f(x).value] else []
  {
    assert [x][1..] == [];
  }

  /** `s.components(separatedBy: String(sep))`: the pieces of `s` between
      occurrences of `sep`; there is always at least one piece. */
  function Split(s: string, sep: char): (parts: seq<string>)
    ensures |parts| >= 1
    ensures forall i :: 0 <= i < |parts| ==> sep !in parts[i]
    ensures |parts| == 1 <==> sep !in s
    ensures sep !in s ==> parts == [s]
  {
    if s == [] then [""]
    else
      var rest := Split(s[1..], sep);
      if s[0] == sep then [""] + rest
      else
        assert s == [s[0]] + s[1..];
        [[s[0]] + rest[0]] + rest[1..]
  }

  /** Splitting at the first separator: the piece before it, then the pieces
      of what follows. */
  lemma {:induction false} SplitAtFirst(a: string, sep: char, b: string)
    requires sep !in a
    ensures Split(a + [sep] + b, sep) == [a] + Split(b, sep)
  {
    if a == [] {
      assert a + [sep] + b == [sep] + b;
      assert ([sep] + b)[1..] == b;
    } else {
      assert (a + [sep] + b)[1..] == a[1..] + [sep] + b;
      SplitAtFirst(a[1..], sep, b);
      assert a == [a[0]] + a[1..];
    }
  }
}
