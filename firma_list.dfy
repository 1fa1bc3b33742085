/**
 * The two updates the dashboard makes to its list of firms: after a create, the new firm is
 * prepended and the list sorted by `adi` with `localeCompare`; after a delete, the list is
 * filtered on `id`. The locale's collation is an abstract total preorder `le` on names.
 */
module FirmaList {

  /** A firm as the server returns it. */
  datatype Firma = Firma(id: int, adi: string, vkn: string)

  /** `le(a, b)` stands for `a.localeCompare(b) <= 0`: total and transitive. */
  ghost predicate TotalPreorder(le: (string, string) -> bool) {
    && (forall a, b :: le(a, b) || le(b, a))
    && (forall a, b, c :: le(a, b) && le(b, c) ==> le(a, c))
  }

  /** Every firm's name collates no later than the names after it. */
  ghost predicate SortedByAdi(xs: seq<Firma>, le: (string, string) -> bool) {
    forall i, j :: 0 <= i < j < |xs| ==> le(xs[i].adi, xs[j].adi)
  }

  /** `f` placed before the first firm whose name it collates no later than: after every strictly smaller name. */
  function Insert(f: Firma, xs: seq<Firma>, le: (string, string) -> bool): (r: seq<Firma>)
    ensures multiset(r) == multiset(xs) + multiset{f}
  {
    if xs == [] then [f]
    else if le(f.adi, xs[0].adi) then [f] + xs
    else
      assert xs == [xs[0]] + xs[1..];
      [xs[0]] + Insert(f, xs[1..], le)
  }

  /** `xs.sort((a, b) => a.adi.localeCompare(b.adi))`, a stable insertion sort: a reordering of `xs`. */
  function SortByAdi(xs: seq<Firma>, le: (string, string) -> bool): (r: seq<Firma>)
    ensures multiset(r) == multiset(xs)
  {
    if xs == [] then []
    else
      assert xs == [xs[0]] + xs[1..];
      Insert(xs[0], SortByAdi(xs[1..], le), le)
  }

  /** Every entry of `ys` is one of `xs`, so a name below all of `xs` is below all of `ys`. */
  lemma BelowAll(x: Firma, xs: seq<Firma>, ys: seq<Firma>, le: (string, string) -> bool)
    requires forall i :: 0 <= i < |xs| ==> le(x.adi, xs[i].adi)
    requires multiset(ys) <= multiset(xs)
    ensures forall j :: 0 <= j < |ys| ==> le(x.adi, ys[j].adi)
  {
    forall j | 0 <= j < |ys| ensures le(x.adi, ys[j].adi) {
      assert ys[j] in multiset(ys);
      assert ys[j] in multiset(xs);
      var k :| 0 <= k < |xs| && xs[k] == ys[j];
    }
  }

  /** A sorted list stays sorted under a new head that collates no later than any of its entries. */
  lemma ConsKeepsSorted(x: Firma, ys: seq<Firma>, le: (string, string) -> bool)
    requires SortedByAdi(ys, le)
    requires forall j :: 0 <= j < |ys| ==> le(x.adi, ys[j].adi)
    ensures SortedByAdi([x] + ys, le)
  {
    var r := [x] + ys;
    forall i, j | 0 <= i < j < |r| ensures le(r[i].adi, r[j].adi) {
      if i > 0 {
        assert r[i] == ys[i - 1] && r[j] == ys[j - 1];
      } else {
        assert r[j] == ys[j - 1];
      }
    }
  }

  lemma {:induction false} InsertKeepsSorted(f: Firma, xs: seq<Firma>, le: (string, string) -> bool)
    requires TotalPreorder(le) && SortedByAdi(xs, le)
    ensures SortedByAdi(Insert(f, xs, le), le)
  {
    if xs == [] {
    } else if le(f.adi, xs[0].adi) {
      var r := [f] + xs;
      forall i, j | 0 <= i < j < |r| ensures le(r[i].adi, r[j].adi) {
        if i == 0 && j > 1 {
          assert le(xs[0].adi, xs[j - 1].adi);
        }
      }
    } else {
      var rest := Insert(f, xs[1..], le);
      InsertKeepsSorted(f, xs[1..], le);
      assert le(xs[0].adi, f.adi);
      assert forall i :: 0 <= i < |xs[1..] + [f]| ==> le(xs[0].adi, (xs[1..] + [f])[i].adi) by {
        forall i | 0 <= i < |xs[1..] + [f]| ensures le(xs[0].adi, (xs[1..] + [f])[i].adi) {
          if i < |xs[1..]| {
            assert (xs[1..] + [f])[i] == xs[i + 1];
          }
        }
      }
      BelowAll(xs[0], xs[1..] + [f], rest, le);
      ConsKeepsSorted(xs[0], rest, le);
    }
  }

  /** After the create, the list is sorted by name. */
  lemma {:induction false} SortIsSorted(xs: seq<Firma>, le: (string, string) -> bool)
    requires TotalPreorder(le)
    ensures SortedByAdi(SortByAdi(xs, le), le)
  {
    if xs != [] {
      SortIsSorted(xs[1..], le);
      InsertKeepsSorted(xs[0], SortByAdi(xs[1..], le), le);
    }
  }

  /** Sorting a sorted list keeps it as it is: the sort only moves what is out of order. */
  lemma {:induction false} SortOfSortedIsIdentity(xs: seq<Firma>, le: (string, string) -> bool)
    requires SortedByAdi(xs, le)
    ensures SortByAdi(xs, le) == xs
  {
    if xs != [] {
      assert SortedByAdi(xs[1..], le);
      SortOfSortedIsIdentity(xs[1..], le);
      if |xs| > 1 {
        assert le(xs[0].adi, xs[1..][0].adi);
      }
    }
  }

  /** When the old list is already sorted, the create inserts the new firm at its place and moves nothing else. */
  lemma PrependThenSortIsInsert(f: Firma, xs: seq<Firma>, le: (string, string) -> bool)
    requires SortedByAdi(xs, le)
    ensures SortByAdi([f] + xs, le) == Insert(f, xs, le)
  {
    assert ([f] + xs)[1..] == xs;
    SortOfSortedIsIdentity(xs, le);
  }

  /** The list after a create: the new firm in front of the old list, then sorted by name. */
  function WithCreated(f: Firma, xs: seq<Firma>, le: (string, string) -> bool): (r: seq<Firma>)
    requires TotalPreorder(le)
    ensures SortedByAdi(r, le)
    ensures multiset(r) == multiset(xs) + multiset{f}
  {
    SortIsSorted([f] + xs, le);
    SortByAdi([f] + xs, le)
  }

  /** `a` is `b` with some entries dropped, the rest in their original order. */
  predicate IsSubsequence(a: seq<Firma>, b: seq<Firma>) {
    if a == [] then true
    else if b == [] then false
    else if a[0] == b[0] then IsSubsequence(a[1..], b[1..])
    else IsSubsequence(a, b[1..])
  }

  lemma {:induction false} SubsequenceOfTail(a: seq<Firma>, b: seq<Firma>)
    requires b != [] && IsSubsequence(a, b[1..])
    ensures IsSubsequence(a, b)
  {
    if a != [] && a[0] == b[0] {
      DropFirstOfSubsequence(a, b[1..]);
    }
  }

  lemma {:induction false} DropFirstOfSubsequence(a: seq<Firma>, b: seq<Firma>)
    requires a != [] && IsSubsequence(a, b)
    ensures IsSubsequence(a[1..], b)
  {
    assert b != [];
    if a[0] == b[0] {
      if a[1..] != [] {
        SubsequenceOfTail(a[1..], b);
      }
    } else {
      DropFirstOfSubsequence(a, b[1..]);
      if a[1..] != [] {
        SubsequenceOfTail(a[1..], b);
      }
    }
  }

  /** `xs.filter(firma => firma.id !== id)`: no entry with the id is left, and the rest keep their order. */
  function WithoutId(xs: seq<Firma>, id: int): (r: seq<Firma>)
    ensures forall i :: 0 <= i < |r| ==> r[i].id != id
    ensures IsSubsequence(r, xs)
  {
    if xs == [] then []
    else
      var rest := WithoutId(xs[1..], id);
      if xs[0].id == id then
        SubsequenceOfTail(rest, xs);
        rest
      else
        assert ([xs[0]] + rest)[1..] == rest;
        [xs[0]] + rest
  }

  /** The filter keeps every entry with another id exactly as often as before, and adds none. */
  lemma {:induction false} WithoutIdCounts(xs: seq<Firma>, id: int)
    ensures forall f: Firma :: f.id != id ==> multiset(WithoutId(xs, id))[f] == multiset(xs)[f]
    ensures multiset(WithoutId(xs, id)) <= multiset(xs)
  {
    if xs != [] {
      WithoutIdCounts(xs[1..], id);
      assert xs == [xs[0]] + xs[1..];
      var rest := WithoutId(xs[1..], id);
      if xs[0].id != id {
        assert WithoutId(xs, id) == [xs[0]] + rest;
      }
    }
  }

  /** A delete keeps a sorted list sorted. */
  lemma {:induction false} WithoutIdKeepsSorted(xs: seq<Firma>, id: int, le: (string, string) -> bool)
    requires SortedByAdi(xs, le)
    ensures SortedByAdi(WithoutId(xs, id), le)
  {
    if xs != [] {
      assert SortedByAdi(xs[1..], le);
      WithoutIdKeepsSorted(xs[1..], id, le);
      var rest := WithoutId(xs[1..], id);
      if xs[0].id != id {
        WithoutIdCounts(xs[1..], id);
        BelowAll(xs[0], xs[1..], rest, le);
        ConsKeepsSorted(xs[0], rest, le);
      }
    }
  }

  /** Deleting an id that no entry has leaves the list as it is. */
  lemma {:induction false} WithoutAbsentId(xs: seq<Firma>, id: int)
    requires forall i :: 0 <= i < |xs| ==> xs[i].id != id
    ensures WithoutId(xs, id) == xs
  {
    if xs != [] {
      WithoutAbsentId(xs[1..], id);
      assert xs == [xs[0]] + xs[1..];
    }
  }

  /** Deleting the same id twice is the same as deleting it once. */
  lemma WithoutIdIsIdempotent(xs: seq<Firma>, id: int)
    ensures WithoutId(WithoutId(xs, id), id) == WithoutId(xs, id)
  {
    WithoutAbsentId(WithoutId(xs, id), id);
  }
}
