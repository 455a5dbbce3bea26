/** The Cartesian product of finite ranges in the order `itertools.product` yields it:
    the first range varies slowest, the last fastest. */
module Product {

  /** Every tail, in order, with x put in front of it. */
  function Prepend<T>(x: T, tails: seq<seq<T>>): seq<seq<T>> {
    seq(|tails|, i requires 0 <= i < |tails| => [x] + tails[i])
  }

  /** For each x of r in order, every tail with x in front of it. */
  function Expand<T>(r: seq<T>, tails: seq<seq<T>>): seq<seq<T>> {
    if r == [] then [] else Prepend(r[0], tails) + Expand(r[1..], tails)
  }

  /** The product of the ranges rs: one tuple per choice of one element from each range. */
  function Product<T>(rs: seq<seq<T>>): seq<seq<T>> {
    if rs == [] then [[]] else Expand(rs[0], Product(rs[1..]))
  }

  /** The product of the range lengths. */
  function Size<T>(rs: seq<seq<T>>): nat {
    if rs == [] then 1 else |rs[0]| * Size(rs[1..])
  }

  /** Size peels off one range at a time. */
  lemma SizeStep<T>(rs: seq<seq<T>>, k: nat)
    requires k < |rs|
    ensures Size(rs[k..]) == |rs[k]| * Size(rs[k + 1..])
  {
    assert rs[k..][1..] == rs[k + 1..];
  }

  lemma {:induction false} ExpandLength<T>(r: seq<T>, tails: seq<seq<T>>)
    ensures |Expand(r, tails)| == |r| * |tails|
  {
    if r != [] {
      ExpandLength(r[1..], tails);
      calc {
        |Expand(r, tails)|;
        |tails| + (|r| - 1) * |tails|;
        |r| * |tails|;
      }
    }
  }

  /** Tuple i * |tails| + j of the expansion is r[i] in front of tails[j]. */
  lemma {:induction false} ExpandAt<T>(r: seq<T>, tails: seq<seq<T>>, i: nat, j: nat)
    requires i < |r| && j < |tails|
    ensures i * |tails| + j < |Expand(r, tails)|
    ensures Expand(r, tails)[i * |tails| + j] == [r[i]] + tails[j]
  {
    var m := |tails|;
    if i > 0 {
      ExpandAt(r[1..], tails, i - 1, j);
      assert i * m + j == m + ((i - 1) * m + j);
    }
  }

  lemma {:induction false} ExpandMember<T>(r: seq<T>, tails: seq<seq<T>>, c: seq<T>)
    ensures c in Expand(r, tails) <==> |c| > 0 && c[0] in r && c[1..] in tails
  {
    if r != [] {
      ExpandMember(r[1..], tails, c);
      if |c| > 0 && c[0] == r[0] && c[1..] in tails {
        var j :| 0 <= j < |tails| && tails[j] == c[1..];
        assert Prepend(r[0], tails)[j] == c;
      }
      if c in Prepend(r[0], tails) {
        var j :| 0 <= j < |tails| && Prepend(r[0], tails)[j] == c;
        assert c[1..] == tails[j];
      }
    }
  }

  /** The product has one tuple per combination: its length is the product of the range lengths. */
  lemma {:induction false} ProductLength<T>(rs: seq<seq<T>>)
    ensures |Product(rs)| == Size(rs)
  {
    if rs != [] {
      ProductLength(rs[1..]);
      ExpandLength(rs[0], Product(rs[1..]));
    }
  }

  /** A tuple is in the product exactly when it has one element per range, drawn from that range. */
  lemma {:induction false} ProductMember<T>(rs: seq<seq<T>>, c: seq<T>)
    ensures c in Product(rs) <==> |c| == |rs| && forall k :: 0 <= k < |rs| ==> c[k] in rs[k]
  {
    if rs == [] {
    } else {
      ExpandMember(rs[0], Product(rs[1..]), c);
      if |c| > 0 {
        ProductMember(rs[1..], c[1..]);
        if |c| == |rs| && forall k :: 0 <= k < |rs| ==> c[k] in rs[k] {
          assert forall k :: 0 <= k < |rs| - 1 ==> c[1..][k] == c[k + 1];
        }
        if c in Product(rs) {
          forall k | 0 <= k < |rs| ensures c[k] in rs[k] {
            if k > 0 { assert c[k] == c[1..][k - 1]; }
          }
        }
      }
    }
  }

  /** itertools order: with M tuples of the later ranges (M is their Size, by ProductLength),
      tuple i * M + j takes element i of the first range followed by tuple j of the later ranges. */
  lemma ProductAt<T>(rs: seq<seq<T>>, i: nat, j: nat)
    requires |rs| > 0 && i < |rs[0]| && j < |Product(rs[1..])|
    ensures i * |Product(rs[1..])| + j < |Product(rs)|
    ensures Product(rs)[i * |Product(rs[1..])| + j] == [rs[0][i]] + Product(rs[1..])[j]
  {
    ExpandAt(rs[0], Product(rs[1..]), i, j);
  }
}
