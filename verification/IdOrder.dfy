/** The order in which a query lists job IDs. */
module IdOrder {
  import opened Wrappers

  /** Lexicographic order on IDs. */
  predicate Before(a: string, b: string) {
    b != [] && (a == [] || a[0] < b[0] || (a[0] == b[0] && Before(a[1..], b[1..])))
  }

  /** The texts agree up to position k, where the first ends or has the smaller character. */
  predicate DiffersAt(a: string, b: string, k: nat) {
    k <= |a| && k < |b| && a[..k] == b[..k] && (k == |a| || a[k] < b[k])
  }

  lemma {:induction false} BeforeHasDifference(a: string, b: string) returns (k: nat)
    requires Before(a, b)
    ensures DiffersAt(a, b, k)
  {
    if a == [] || a[0] < b[0] {
      k := 0;
    } else {
      k := BeforeHasDifference(a[1..], b[1..]);
      k := k + 1;
      assert a[..k] == [a[0]] + a[1..][..k - 1] && b[..k] == [b[0]] + b[1..][..k - 1];
    }
  }

  lemma {:induction false} DifferenceOrders(a: string, b: string, k: nat)
    requires DiffersAt(a, b, k)
    ensures Before(a, b)
  {
    if k > 0 {
      assert a[0] == a[..k][0] == b[..k][0] == b[0];
      assert a[1..][..k - 1] == a[..k][1..] && b[1..][..k - 1] == b[..k][1..];
      DifferenceOrders(a[1..], b[1..], k - 1);
    }
  }

  /** The order is ascending: at the first difference the smaller character, or the end, comes first. */
  lemma BeforeExactly(a: string, b: string)
    ensures Before(a, b) <==> exists k :: DiffersAt(a, b, k)
  {
    if Before(a, b) {
      var k := BeforeHasDifference(a, b);
    }
    if k :| DiffersAt(a, b, k) {
      DifferenceOrders(a, b, k);
    }
  }

  ghost predicate Sorted(s: seq<string>) {
    forall i, j :: 0 <= i < j < |s| ==> Before(s[i], s[j])
  }

  lemma {:induction false} BeforeIsStrict(a: string)
    ensures !Before(a, a)
  {
    if a != [] {
      BeforeIsStrict(a[1..]);
    }
  }

  lemma {:induction false} BeforeIsTransitive(a: string, b: string, c: string)
    requires Before(a, b) && Before(b, c)
    ensures Before(a, c)
  {
    if a != [] && a[0] == b[0] == c[0] {
      BeforeIsTransitive(a[1..], b[1..], c[1..]);
    }
  }

  lemma {:induction false} BeforeIsTotal(a: string, b: string)
    ensures a == b || Before(a, b) || Before(b, a)
  {
    if a != [] && b != [] && a[0] == b[0] {
      BeforeIsTotal(a[1..], b[1..]);
      assert a == [a[0]] + a[1..] && b == [b[0]] + b[1..];
    }
  }

  /** Insert an ID at its place. */
  function Insert(s: seq<string>, x: string): (r: seq<string>)
    ensures Elems(r) == Elems(s) + {x}
  {
    if s == [] then [x]
    else if Before(x, s[0]) then [x] + s
    else
      assert s == [s[0]] + s[1..];
      ElemsConcat([s[0]], s[1..]);
      ElemsConcat([s[0]], Insert(s[1..], x));
      [s[0]] + Insert(s[1..], x)
  }

  lemma {:induction false} InsertSorts(s: seq<string>, x: string)
    requires Sorted(s) && x !in s
    ensures Sorted(Insert(s, x))
  {
    var r := Insert(s, x);
    if s != [] {
      if Before(x, s[0]) {
        forall j | 0 < j < |s| ensures Before(x, s[j]) {
          BeforeIsTransitive(x, s[0], s[j]);
        }
      } else {
        BeforeIsTotal(x, s[0]);
        InsertSorts(s[1..], x);
        var rest := Insert(s[1..], x);
        forall j | 0 <= j < |rest| ensures Before(s[0], rest[j]) {
          assert rest[j] in Elems(rest);
        }
      }
    }
  }

  /** Sort IDs that are all different. */
  method SortIds(ids: seq<string>) returns (r: seq<string>)
    requires Distinct(ids)
    ensures Sorted(r) && Elems(r) == Elems(ids)
  {
    r := [];
    for i := 0 to |ids|
      invariant Sorted(r) && Elems(r) == Elems(ids[..i])
    {
      assert ids[..i + 1] == ids[..i] + [ids[i]];
      assert ids[i] !in Elems(ids[..i]);
      InsertSorts(r, ids[i]);
      r := Insert(r, ids[i]);
    }
    assert ids[..|ids|] == ids;
  }

  lemma SortedHead(a: seq<string>, b: seq<string>)
    requires Sorted(a) && Sorted(b) && Elems(a) == Elems(b)
    requires a != [] && b != []
    ensures a[0] == b[0]
  {
    assert a[0] in Elems(b) && b[0] in Elems(a);
    if a[0] != b[0] {
      BeforeIsTransitive(a[0], b[0], a[0]);
      BeforeIsStrict(a[0]);
    }
  }

  lemma SortedTail(a: seq<string>)
    requires Sorted(a) && a != []
    ensures Sorted(a[1..]) && Elems(a[1..]) == Elems(a) - {a[0]}
  {
    BeforeIsStrict(a[0]);
    assert a == [a[0]] + a[1..];
  }

  /** A set of IDs has one sorted listing. */
  lemma {:induction false} SortedUnique(a: seq<string>, b: seq<string>)
    requires Sorted(a) && Sorted(b) && Elems(a) == Elems(b)
    ensures a == b
  {
    if a == [] || b == [] {
      assert |a| == |b| by {
        ElemsEmpty(a);
        ElemsEmpty(b);
      }
    } else {
      SortedHead(a, b);
      SortedTail(a);
      SortedTail(b);
      SortedUnique(a[1..], b[1..]);
      assert a == [a[0]] + a[1..] && b == [b[0]] + b[1..];
    }
  }
}
