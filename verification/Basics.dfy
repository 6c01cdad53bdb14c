/** Results, the byte order on strings, and sorting, shared by every other module. */
module Basics {

  datatype Option<+T> = None | Some(value: T)
  {
    function GetOr(default: T): T {
      if None? then default else value
    }
  }

  datatype Result<+T, +E> = Ok(value: T) | Err(error: E)

  // The order Go's `<` gives strings.
  predicate Less(a: string, b: string)
    decreases |a|
  {
    if |b| == 0 then false
    else if |a| == 0 then true
    else a[0] < b[0] || (a[0] == b[0] && Less(a[1..], b[1..]))
  }

  lemma {:induction false} LessTotal(a: string, b: string)
    ensures a == b || Less(a, b) || Less(b, a)
    ensures !(Less(a, b) && Less(b, a))
    ensures !Less(a, a)
    decreases |a|
  {
    if |a| > 0 {
      LessTotal(a[1..], a[1..]);
      if |b| > 0 && a[0] == b[0] {
        LessTotal(a[1..], b[1..]);
        assert a == [a[0]] + a[1..] && b == [b[0]] + b[1..];
      }
    }
  }

  lemma {:induction false} LessTransitive(a: string, b: string, c: string)
    requires Less(a, b) && Less(b, c)
    ensures Less(a, c)
    decreases |a|
  {
    if |a| > 0 && a[0] == b[0] && b[0] == c[0] {
      LessTransitive(a[1..], b[1..], c[1..]);
    }
  }

  /** Each key comes strictly before every later one, so no key occurs twice. */
  ghost predicate StrictlySorted(keys: seq<string>) {
    forall i, j :: 0 <= i < j < |keys| ==> Less(keys[i], keys[j])
  }

  /** A set of keys has one strictly sorted listing. */
  lemma {:induction false} SortedListingUnique(a: seq<string>, b: seq<string>)
    requires StrictlySorted(a) && StrictlySorted(b)
    requires forall x :: x in a <==> x in b
    ensures a == b
    decreases |a|
  {
    assert |b| > 0 ==> b[0] in a;
    if |a| > 0 {
      assert a[0] in a && a[0] in b;
      assert |b| > 0 && b[0] in b && b[0] in a;
      if a[0] != b[0] {
        var i :| 0 <= i < |b| && b[i] == a[0];
        var j :| 0 <= j < |a| && a[j] == b[0];
        assert Less(b[0], b[i]) && Less(a[0], a[j]);
        LessTotal(a[0], b[0]);
        assert false;
      }
      SortedTail(a);
      SortedTail(b);
      forall x
        ensures x in a[1..] <==> x in b[1..]
      {
        assert x in a <==> x == a[0] || x in a[1..];
        assert x in b <==> x == b[0] || x in b[1..];
      }
      SortedListingUnique(a[1..], b[1..]);
      assert a == [a[0]] + a[1..] && b == [b[0]] + b[1..];
    }
  }

  lemma SortedTail(a: seq<string>)
    requires StrictlySorted(a) && |a| > 0
    ensures StrictlySorted(a[1..])
    ensures a[0] !in a[1..]
  {
    if a[0] in a[1..] {
      var j :| 0 <= j < |a[1..]| && a[1..][j] == a[0];
      assert Less(a[0], a[j + 1]);
      LessTotal(a[0], a[0]);
    }
  }

  ghost predicate StrictWeakOrder<T(!new)>(less: (T, T) -> bool) {
    && (forall a, b :: less(a, b) ==> !less(b, a))
    && (forall a, b, c :: !less(a, b) && !less(b, c) ==> !less(a, c))
  }

  ghost predicate Ordered<T>(items: seq<T>, less: (T, T) -> bool) {
    forall i, j :: 0 <= i < j < |items| ==> !less(items[j], items[i])
  }

  // sort.Slice: some ordered rearrangement. Where two items tie, callers learn nothing
  // about which comes first, as Go promises nothing.
  method SortSlice<T(!new)>(items: seq<T>, less: (T, T) -> bool) returns (sorted: seq<T>)
    requires StrictWeakOrder(less)
    ensures multiset(sorted) == multiset(items)
    ensures Ordered(sorted, less)
  {
    sorted := [];
    for n := 0 to |items|
      invariant multiset(sorted) == multiset(items[..n])
      invariant Ordered(sorted, less)
    {
      var item := items[n];
      var at := 0;
      while at < |sorted| && !less(item, sorted[at])
        invariant at <= |sorted|
        invariant forall i :: 0 <= i < at ==> !less(item, sorted[i])
      {
        at := at + 1;
      }
      InsertedInOrder(sorted, at, item, less);
      InsertedOnce(sorted, at, item);
      TakeOneMore(items, n);
      sorted := sorted[..at] + [item] + sorted[at..];
    }
    assert items[..|items|] == items;
  }

  lemma InsertedOnce<T>(before: seq<T>, at: nat, item: T)
    requires at <= |before|
    ensures multiset(before[..at] + [item] + before[at..]) == multiset(before) + multiset{item}
  {
    assert before == before[..at] + before[at..];
  }

  lemma TakeOneMore<T>(items: seq<T>, n: nat)
    requires n < |items|
    ensures items[..n + 1] == items[..n] + [items[n]]
    ensures multiset(items[..n + 1]) == multiset(items[..n]) + multiset{items[n]}
  {
    assert items[..n + 1] == items[..n] + [items[n]];
  }

  lemma InsertedInOrder<T(!new)>(before: seq<T>, at: nat, item: T, less: (T, T) -> bool)
    requires StrictWeakOrder(less) && Ordered(before, less) && at <= |before|
    requires forall i :: 0 <= i < at ==> !less(item, before[i])
    requires at < |before| ==> less(item, before[at])
    ensures Ordered(before[..at] + [item] + before[at..], less)
  {
    var sorted := before[..at] + [item] + before[at..];
    forall i, j | 0 <= i < j < |sorted|
      ensures !less(sorted[j], sorted[i])
    {
      if i == at {
        assert sorted[j] == before[j - 1];
        assert !less(before[j - 1], before[at]);
        assert !less(before[at], item);
      }
    }
  }

  lemma LessOrder()
    ensures StrictWeakOrder(Less)
  {
    forall a: string, b: string | Less(a, b)
      ensures !Less(b, a)
    {
      LessTotal(a, b);
    }
    forall a: string, b: string, c: string | !Less(a, b) && !Less(b, c)
      ensures !Less(a, c)
    {
      LessTotal(a, b);
      LessTotal(b, c);
      LessTotal(a, c);
      if Less(b, a) && Less(c, b) {
        LessTransitive(c, b, a);
      }
    }
  }

  ghost predicate NoRepeats<T>(items: seq<T>) {
    forall i, j :: 0 <= i < j < |items| ==> items[i] != items[j]
  }

  lemma NoRepeatsOnce<T>(items: seq<T>, i: nat, j: nat)
    requires NoRepeats(items) && i < |items| && j < |items| && items[i] == items[j]
    ensures i == j
  {
  }

  lemma HeadAndTail<T>(items: seq<T>)
    requires |items| > 0
    ensures items == [items[0]] + items[1..]
  {
  }

  lemma NoRepeatsCount<T>(items: seq<T>, x: T)
    requires NoRepeats(items)
    ensures multiset(items)[x] == if x in items then 1 else 0
  {
    if x in items {
      var k :| 0 <= k < |items| && items[k] == x;
      assert items == items[..k] + [items[k]] + items[k + 1..];
      assert items[k] !in items[..k] && items[k] !in items[k + 1..];
    }
  }

  lemma CountNoRepeats<T>(items: seq<T>)
    requires forall i :: 0 <= i < |items| ==> multiset(items)[items[i]] == 1
    ensures NoRepeats(items)
  {
    forall i, j | 0 <= i < j < |items|
      ensures items[i] != items[j]
    {
      assert items == items[..j] + [items[j]] + items[j + 1..];
      assert items[i] in items[..j];
      assert items[j] in items;
    }
  }

  /** A set of keys as Go's sort.Strings or sort.Slice would list them. */
  method SortKeys(keys: set<string>) returns (sorted: seq<string>)
    ensures StrictlySorted(sorted)
    ensures forall k :: k in sorted <==> k in keys
  {
    var listed: seq<string> := [];
    var rest := keys;
    while rest != {}
      invariant rest <= keys && NoRepeats(listed)
      invariant forall k :: k in listed <==> k in keys && k !in rest
      decreases rest
    {
      var key :| key in rest;
      rest := rest - {key};
      listed := listed + [key];
    }
    LessOrder();
    sorted := SortSlice(listed, Less);
    SortedKeys(listed, sorted);
  }

  lemma SortedKeys(listed: seq<string>, sorted: seq<string>)
    requires NoRepeats(listed) && multiset(sorted) == multiset(listed) && Ordered(sorted, Less)
    ensures StrictlySorted(sorted)
    ensures forall k :: k in sorted <==> k in listed
  {
    forall k
      ensures k in sorted <==> k in listed
    {
      assert k in sorted <==> k in multiset(sorted);
      assert k in listed <==> k in multiset(listed);
    }
    forall i | 0 <= i < |sorted|
      ensures multiset(sorted)[sorted[i]] == 1
    {
      NoRepeatsCount(listed, sorted[i]);
    }
    CountNoRepeats(sorted);
    forall i, j | 0 <= i < j < |sorted|
      ensures Less(sorted[i], sorted[j])
    {
      LessTotal(sorted[i], sorted[j]);
      assert !Less(sorted[j], sorted[i]);
    }
  }
}
