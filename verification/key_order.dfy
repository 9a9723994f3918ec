/** The two orders of keys, and the listing of a canonical object, said of code units and numbers. */
module KeyOrder {
  import opened Json
  import opened CanonicalEquality

  // ---------------------------------------------------------------- code-unit order

  /** The texts agree up to position `k`, where `a` has the smaller code unit. */
  predicate SmallerAt(a: Text, b: Text, k: nat) {
    k < |a| && k < |b| && a[..k] == b[..k] && a[k] < b[k]
  }

  predicate ProperPrefix(a: Text, b: Text) {
    |a| < |b| && b[..|a|] == a
  }

  /** The default sort order: a proper prefix comes first, and otherwise the first difference decides. */
  lemma {:induction false} LessMeans(a: Text, b: Text)
    ensures Less(a, b) <==> ProperPrefix(a, b) || exists k: nat :: SmallerAt(a, b, k)
  {
    if a != [] && b != [] && a[0] == b[0] {
      var p, q := a[1..], b[1..];
      LessMeans(p, q);
      assert a == [a[0]] + p && b == [b[0]] + q;
      assert ProperPrefix(a, b) <==> ProperPrefix(p, q) by { assert |a| < |b| ==> b[..|a|] == [b[0]] + q[..|p|]; }
      if k: nat :| SmallerAt(p, q, k) {
        assert a[..k + 1] == [a[0]] + p[..k] && b[..k + 1] == [b[0]] + q[..k];
        assert SmallerAt(a, b, k + 1);
      }
      if k: nat :| SmallerAt(a, b, k) {
        assert k > 0 && p[..k - 1] == a[..k][1..] && q[..k - 1] == b[..k][1..];
        assert SmallerAt(p, q, k - 1);
      }
    } else if a != [] && b != [] {
      forall k: nat { PrefixHead(a, b, k); }
      PrefixHead(a, b, |a|);
      assert a[..|a|] == a;
      assert a[0] < b[0] ==> SmallerAt(a, b, 0);
    }
  }

  lemma PrefixHead(a: Text, b: Text, k: nat)
    ensures 0 < k <= |a| && k <= |b| && a[..k] == b[..k] ==> a[0] == b[0]
  {
    if 0 < k <= |a| && k <= |b| && a[..k] == b[..k] {
      assert a[..k][0] == a[0] && b[..k][0] == b[0];
    }
  }

  // ---------------------------------------------------------------- numbers as keys

  /** The decimal text of a number. */
  function Digits(n: nat): (k: Text)
    ensures k != [] && IsDigits(k)
  {
    if n < 10 then [48 + n] else Digits(n / 10) + [48 + n % 10]
  }

  lemma {:induction false} DigitsRead(n: nat)
    ensures Decimal(Digits(n)) == n && (Digits(n)[0] != 48 || |Digits(n)| == 1)
    ensures n > 0 ==> Digits(n)[0] != 48
  {
    if n < 10 {
      assert Digits(n)[..0] == [];
    } else {
      var k := Digits(n / 10);
      DigitsRead(n / 10);
      assert Digits(n)[..|Digits(n)| - 1] == k && Digits(n)[0] == k[0];
    }
  }

  /** The index keys are the decimal texts of the numbers below 2^32 - 1, and no other keys. */
  lemma IndexKeysAreNumbers(k: Text)
    ensures IsIndex(k) <==> exists n: nat :: n < 4_294_967_295 && k == Digits(n)
  {
    if IsIndex(k) {
      DigitsRead(Decimal(k));
      DecimalInjective(k, Digits(Decimal(k)));
    }
    if n: nat :| n < 4_294_967_295 && k == Digits(n) {
      DigitsRead(n);
    }
  }

  // ---------------------------------------------------------------- listings

  /** How readers list an object: index keys before names, and index keys by number. */
  ghost predicate IndicesFirst(r: seq<Member>) {
    forall i, j :: 0 <= i < j < |r| && IsIndex(r[j].key) ==> IsIndex(r[i].key) && Decimal(r[i].key) < Decimal(r[j].key)
  }

  /** The index keys of a listing, and then its names. */
  lemma PartOf(s: seq<Member>, i: nat)
    requires i < |OwnOrder(s)|
    ensures var n, r := |IndexPart(s)|, OwnOrder(s)[i];
      && (IsIndex(r.key) <==> i < n)
      && (i < n ==> |Sort(NumericLess, IndexPart(s))| == n && r == Sort(NumericLess, IndexPart(s))[i])
      && (i >= n ==> i - n < |NamePart(s)| && r == NamePart(s)[i - n])
  {
    var sorted, names, r := Sort(NumericLess, IndexPart(s)), NamePart(s), OwnOrder(s);
    SameElements(sorted, IndexPart(s));
    if i < |sorted| {
      assert r[i] == sorted[i] && r[i] in sorted;
    } else {
      assert r[i] == names[i - |sorted|] && r[i] in names;
    }
  }

  lemma IndicesAscend(s: seq<Member>, i: nat, j: nat)
    requires DistinctKeys(s) && i < j < |OwnOrder(s)| && IsIndex(OwnOrder(s)[j].key)
    ensures IsIndex(OwnOrder(s)[i].key) && Decimal(OwnOrder(s)[i].key) < Decimal(OwnOrder(s)[j].key)
  {
    OwnOrderMembers(s);
    PartOf(s, i);
    PartOf(s, j);
    var sorted := Sort(NumericLess, IndexPart(s));
    assert NumericLess(sorted[i].key, sorted[j].key);
  }

  lemma NamesAscend(s: seq<Member>, i: nat, j: nat)
    requires i < j < |OwnOrder(s)| && !IsIndex(OwnOrder(s)[i].key) && !IsIndex(OwnOrder(s)[j].key)
    requires Ascending(Less, NamePart(s))
    ensures Less(OwnOrder(s)[i].key, OwnOrder(s)[j].key)
  {
    PartOf(s, i);
    PartOf(s, j);
  }

  /** Own-property order: index keys by number, then the names in the order they were inserted. */
  lemma OwnOrderMeans(s: seq<Member>)
    requires DistinctKeys(s)
    ensures IndicesFirst(OwnOrder(s)) && NamePart(OwnOrder(s)) == NamePart(s)
    ensures (forall e :: e in OwnOrder(s) <==> e in s) && DistinctKeys(OwnOrder(s))
  {
    OwnOrderMembers(s);
    NamePartOfOwnOrder(s);
    var r := OwnOrder(s);
    forall i, j | 0 <= i < j < |r| && IsIndex(r[j].key)
      ensures IsIndex(r[i].key) && Decimal(r[i].key) < Decimal(r[j].key)
    {
      IndicesAscend(s, i, j);
    }
  }

  /** Index keys first and by number, then the names by code units. */
  ghost predicate CanonicallyListed(r: seq<Member>) {
    && IndicesFirst(r)
    && forall i, j :: 0 <= i < j < |r| && !IsIndex(r[i].key) && !IsIndex(r[j].key) ==> Less(r[i].key, r[j].key)
  }

  lemma OwnOrderListsCanonically(s: seq<Member>)
    requires DistinctKeys(s) && Ascending(Less, NamePart(s))
    ensures CanonicallyListed(OwnOrder(s))
  {
    OwnOrderMeans(s);
    var r := OwnOrder(s);
    forall i, j | 0 <= i < j < |r| && !IsIndex(r[i].key) && !IsIndex(r[j].key) ensures Less(r[i].key, r[j].key) {
      NamesAscend(s, i, j);
    }
  }

  lemma CanonicalKeys(m: seq<Member>)
    requires DistinctKeys(m)
    ensures Keys(CanonicalMembers(m)) == Keys(m)
  {
    var listed := CanonicalMembers(m);
    forall k ensures k in Keys(listed) <==> k in Keys(m) {
      if k in Keys(listed) {
        var e :| e in listed && e.key == k;
        var f := CanonicalMemberFrom(m, e);
      }
      if k in Keys(m) {
        var f :| f in m && f.key == k;
        CanonicalMemberOf(m, f);
      }
    }
  }

  /** What canonical printing lists of an object: the same keys, each once, in canonical order. */
  lemma {:induction false} CanonicalListing(m: seq<Member>)
    requires DistinctKeys(m)
    ensures OwnView(SortKeys(Obj(m))).Obj?
    ensures var r := OwnView(SortKeys(Obj(m))).members;
      CanonicallyListed(r) && Keys(r) == Keys(m) && DistinctKeys(r)
  {
    CanonicalMembersAscend(m);
    OwnOrderListsCanonically(CanonicalMembers(m));
    OwnOrderMeans(CanonicalMembers(m));
    CanonicalKeys(m);
  }
}
