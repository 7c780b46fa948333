/** The list shown by src/pages/Dashboard.jsx: the available donations kept by the search
    box, ordered by the chosen field. */
module Dashboard {
  import opened Wrappers
  import opened Text

  /** The fields of an available donation that the filter and the sort read; an absent
      field is `None`. */
  datatype Donation = Donation(
    id: int,
    title: Option<string>,
    category: Option<string>,
    createdAt: Option<string>,
    quantity: Option<int>)

  /** The two choices of the sort menu; `createdAt` is the initial one. */
  datatype SortField = CreatedAt | Quantity

  const DefaultSort: SortField := CreatedAt

  /** `x || ''` for an optional string. */
  function OrEmpty(s: Option<string>): string {
    if s.Some? then s.value else ""
  }

  /** The filter callback: the lower-cased title or category contains the lower-cased
      search text. */
  predicate Keep(d: Donation, search: string) {
    Contains(Lower(OrEmpty(d.title)), Lower(search))
    || Contains(Lower(OrEmpty(d.category)), Lower(search))
  }

  /** `donations.filter(Keep)`. */
  function Filter(ds: seq<Donation>, search: string): (r: seq<Donation>)
    ensures |r| <= |ds|
  {
    if ds == [] then []
    else (if Keep(ds[0], search) then [ds[0]] else []) + Filter(ds[1..], search)
  }

  /** A donation is listed exactly when it is one of the donations and the search keeps it. */
  lemma {:induction false} FilterMembership(ds: seq<Donation>, search: string, d: Donation)
    ensures d in Filter(ds, search) <==> d in ds && Keep(d, search)
  {
    if ds != [] {
      FilterMembership(ds[1..], search, d);
      assert ds == [ds[0]] + ds[1..];
    }
  }

  /** Filtering keeps each kept donation as many times as it occurs and drops the rest. */
  lemma {:induction false} FilterCount(ds: seq<Donation>, search: string, d: Donation)
    ensures multiset(Filter(ds, search))[d] == if Keep(d, search) then multiset(ds)[d] else 0
  {
    if ds != [] {
      FilterCount(ds[1..], search, d);
      var head := if Keep(ds[0], search) then [ds[0]] else [];
      assert multiset(Filter(ds, search)) == multiset(head) + multiset(Filter(ds[1..], search));
      assert ds == [ds[0]] + ds[1..];
      assert multiset(ds) == multiset{ds[0]} + multiset(ds[1..]);
    }
  }

  /** An empty search keeps every donation, in order. */
  lemma {:induction false} EmptySearchKeepsAll(ds: seq<Donation>)
    ensures Filter(ds, "") == ds
  {
    if ds != [] {
      ContainsEmpty(Lower(OrEmpty(ds[0].title)));
      EmptySearchKeepsAll(ds[1..]);
      assert ds == [ds[0]] + ds[1..];
    }
  }

  // ---------------------------------------------------------------------------
  // The comparator

  /** A truthy sort value: a non-empty date string or a non-zero quantity. */
  datatype Key = KStr(s: string) | KNum(n: int)

  /** `d[sort]` when truthy; `None` for an absent, empty or zero value. */
  function SortKey(d: Donation, field: SortField): (k: Option<Key>)
    ensures field == CreatedAt ==> (k.Some? <==> d.createdAt.Some? && d.createdAt.value != "")
    ensures field == Quantity ==> (k.Some? <==> d.quantity.Some? && d.quantity.value != 0)
  {
    match field
    case CreatedAt => if d.createdAt.Some? && d.createdAt.value != "" then Some(KStr(d.createdAt.value)) else None
    case Quantity => if d.quantity.Some? && d.quantity.value != 0 then Some(KNum(d.quantity.value)) else None
  }

  /** JavaScript's `<` on two strings: by character code, a proper prefix first. */
  predicate StrLess(a: string, b: string) {
    if a == [] then b != []
    else if b == [] then false
    else if a[0] != b[0] then a[0] < b[0]
    else StrLess(a[1..], b[1..])
  }

  lemma {:induction false} StrLessIrreflexive(a: string)
    ensures !StrLess(a, a)
  {
    if a != [] {
      StrLessIrreflexive(a[1..]);
    }
  }

  lemma {:induction false} StrLessTransitive(a: string, b: string, c: string)
    requires StrLess(a, b) && StrLess(b, c)
    ensures StrLess(a, c)
  {
    if a != [] && b != [] && c != [] && a[0] == b[0] == c[0] {
      StrLessTransitive(a[1..], b[1..], c[1..]);
    }
  }

  lemma {:induction false} StrLessTrichotomy(a: string, b: string)
    ensures StrLess(a, b) || StrLess(b, a) || a == b
  {
    if a != [] && b != [] && a[0] == b[0] {
      StrLessTrichotomy(a[1..], b[1..]);
      if a[1..] == b[1..] {
        assert a == [a[0]] + a[1..] && b == [b[0]] + b[1..];
      }
    }
  }

  /** `a[sort] > b[sort]` reversed: the keys of one field are all strings or all numbers. */
  predicate KeyLess(a: Key, b: Key) {
    match (a, b)
    case (KStr(x), KStr(y)) => StrLess(x, y)
    case (KNum(x), KNum(y)) => x < y
    case _ => false
  }

  /** `a` may come before `b`: a falsy key only before another falsy key, a truthy key
      before every falsy one, and before a truthy key it does not exceed. */
  predicate Before(a: Option<Key>, b: Option<Key>) {
    b.None? || (a.Some? && !KeyLess(b.value, a.value))
  }

  predicate SameKind(a: Key, b: Key) { a.KStr? == b.KStr? }

  lemma BeforeTotal(a: Option<Key>, b: Option<Key>)
    requires a.Some? && b.Some? ==> SameKind(a.value, b.value)
    ensures Before(a, b) || Before(b, a)
  {
    if a.Some? && b.Some? && a.value.KStr? && b.value.KStr? {
      StrLessTrichotomy(a.value.s, b.value.s);
      if StrLess(a.value.s, b.value.s) && StrLess(b.value.s, a.value.s) {
        StrLessTransitive(a.value.s, b.value.s, a.value.s);
        StrLessIrreflexive(a.value.s);
      }
    }
  }

  lemma BeforeTransitive(a: Option<Key>, b: Option<Key>, c: Option<Key>)
    requires Before(a, b) && Before(b, c)
    requires a.Some? && b.Some? && c.Some? ==>
      SameKind(a.value, b.value) && SameKind(b.value, c.value)
    ensures Before(a, c)
  {
    if a.Some? && b.Some? && c.Some? && a.value.KStr? {
      var x, y, z := a.value.s, b.value.s, c.value.s;
      if StrLess(z, x) {
        StrLessTrichotomy(y, z);
        if StrLess(y, z) {
          StrLessTransitive(y, z, x);
        } else if StrLess(z, y) {
          assert false;
        }
      }
    }
  }

  // ---------------------------------------------------------------------------
  // The sort

  /** Every earlier donation may come before every later one. */
  predicate Sorted(ds: seq<Donation>, field: SortField) {
    forall i, j :: 0 <= i < j < |ds| ==> Before(SortKey(ds[i], field), SortKey(ds[j], field))
  }

  lemma KeysSameKind(a: Donation, b: Donation, field: SortField)
    requires SortKey(a, field).Some? && SortKey(b, field).Some?
    ensures SameKind(SortKey(a, field).value, SortKey(b, field).value)
  {
  }

  /** Inserts `d` in front of the first donation it may come before. */
  function Insert(d: Donation, ds: seq<Donation>, field: SortField): (r: seq<Donation>)
    ensures multiset(r) == multiset(ds) + multiset{d}
  {
    if ds == [] then [d]
    else if Before(SortKey(d, field), SortKey(ds[0], field)) then [d] + ds
    else
      assert ds == [ds[0]] + ds[1..];
      [ds[0]] + Insert(d, ds[1..], field)
  }

  /** The ordering of `filtered`, stated by an insertion sort: its result is the
      comparator's ordering; which of two equal keys comes first is not fixed. */
  function Sort(ds: seq<Donation>, field: SortField): (r: seq<Donation>)
  {
    if ds == [] then [] else Insert(ds[0], Sort(ds[1..], field), field)
  }

  lemma {:induction false} InsertSorted(d: Donation, ds: seq<Donation>, field: SortField)
    requires Sorted(ds, field)
    ensures Sorted(Insert(d, ds, field), field)
  {
    if ds != [] {
      var kd := SortKey(d, field);
      if Before(kd, SortKey(ds[0], field)) {
        var r := [d] + ds;
        forall i, j | 0 <= i < j < |r| ensures Before(SortKey(r[i], field), SortKey(r[j], field)) {
          if i == 0 {
            if j > 1 {
              var k0, kj := SortKey(ds[0], field), SortKey(ds[j - 1], field);
              if kd.Some? && k0.Some? && kj.Some? {
                KeysSameKind(d, ds[0], field);
                KeysSameKind(ds[0], ds[j - 1], field);
              }
              BeforeTransitive(kd, k0, kj);
            }
          } else {
            assert r[i] == ds[i - 1] && r[j] == ds[j - 1];
          }
        }
      } else {
        var tail := ds[1..];
        assert Sorted(tail, field) by {
          forall i, j | 0 <= i < j < |tail| ensures Before(SortKey(tail[i], field), SortKey(tail[j], field)) {
            assert tail[i] == ds[i + 1] && tail[j] == ds[j + 1];
          }
        }
        InsertSorted(d, tail, field);
        var ins := Insert(d, tail, field);
        var r := [ds[0]] + ins;
        if SortKey(d, field).Some? && SortKey(ds[0], field).Some? {
          KeysSameKind(d, ds[0], field);
        }
        BeforeTotal(SortKey(d, field), SortKey(ds[0], field));
        forall i, j | 0 <= i < j < |r| ensures Before(SortKey(r[i], field), SortKey(r[j], field)) {
          if i == 0 {
            assert r[j] == ins[j - 1];
            assert r[j] in multiset(ins);
            assert r[j] == d || r[j] in multiset(tail);
            if r[j] != d {
              var m :| 0 <= m < |tail| && tail[m] == r[j];
              assert ds[m + 1] == r[j];
            }
          } else {
            assert r[i] == ins[i - 1] && r[j] == ins[j - 1];
          }
        }
      }
    }
  }

  /** The sorted list is a permutation of its input: nothing invented or duplicated. */
  lemma {:induction false} SortPermutation(ds: seq<Donation>, field: SortField)
    ensures multiset(Sort(ds, field)) == multiset(ds)
  {
    if ds != [] {
      SortPermutation(ds[1..], field);
      assert ds == [ds[0]] + ds[1..];
    }
  }

  lemma {:induction false} SortSorted(ds: seq<Donation>, field: SortField)
    ensures Sorted(Sort(ds, field), field)
  {
    if ds != [] {
      SortSorted(ds[1..], field);
      InsertSorted(ds[0], Sort(ds[1..], field), field);
    }
  }

  /** `filtered`: the kept donations, ordered by the field. */
  function Visible(ds: seq<Donation>, search: string, field: SortField): seq<Donation> {
    Sort(Filter(ds, search), field)
  }

  /** What the page lists: exactly the kept donations, each as many times as in the
      list; those with a truthy value of the field come first, in ascending order of it,
      and those without it come last. */
  lemma VisibleSpec(ds: seq<Donation>, search: string, field: SortField)
    ensures forall d :: (multiset(Visible(ds, search, field))[d] ==
      if Keep(d, search) then multiset(ds)[d] else 0)
    ensures forall d :: d in Visible(ds, search, field) <==> d in ds && Keep(d, search)
    ensures var v := Visible(ds, search, field);
      forall i, j :: (0 <= i < j < |v| && SortKey(v[i], field).None?) ==> SortKey(v[j], field).None?
    ensures var v := Visible(ds, search, field);
      forall i, j :: (0 <= i < j < |v| && SortKey(v[i], field).Some? && SortKey(v[j], field).Some?) ==>
        !KeyLess(SortKey(v[j], field).value, SortKey(v[i], field).value)
  {
    var f := Filter(ds, search);
    SortPermutation(f, field);
    SortSorted(f, field);
    forall d ensures multiset(Visible(ds, search, field))[d] == if Keep(d, search) then multiset(ds)[d] else 0 {
      FilterCount(ds, search, d);
    }
    forall d ensures d in Visible(ds, search, field) <==> d in ds && Keep(d, search) {
      FilterMembership(ds, search, d);
      assert d in Visible(ds, search, field) <==> d in multiset(f);
    }
  }
}
