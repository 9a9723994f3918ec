/** What the canonical text means: two payloads have the same text exactly when they are equal
    up to member order, and a plain `JSON.stringify` is canonical exactly when every object
    already lists its names in code-unit order. */
module CanonicalEquality {
  import opened Json
  import opened JsonPrinting

  // ---------------------------------------------------------------- equality up to key order

  lemma {:induction false} EquivReflexive(v: Value)
    requires Valid(v)
    ensures Equiv(v, v)
  {
    match v
    case Arr(items) =>
      forall i | 0 <= i < |items| ensures Equiv(items[i], items[i]) { EquivReflexive(items[i]); }
    case Obj(m) =>
      forall e, f | e in m && f in m && e.key == f.key ensures Equiv(e.val, f.val) {
        SameMember(m, e, f);
        EquivReflexive(e.val);
      }
    case _ =>
  }

  lemma {:induction false} EquivSymmetric(v: Value, w: Value)
    requires Equiv(v, w)
    ensures Equiv(w, v)
  {
    match v
    case Arr(items) =>
      forall i | 0 <= i < |items| ensures Equiv(w.items[i], items[i]) { EquivSymmetric(items[i], w.items[i]); }
    case Obj(m) =>
      forall f, e | f in w.members && e in m && f.key == e.key ensures Equiv(f.val, e.val) {
        EquivSymmetric(e.val, f.val);
      }
    case _ =>
  }

  lemma {:induction false} EquivTransitive(u: Value, v: Value, w: Value)
    requires Equiv(u, v) && Equiv(v, w)
    ensures Equiv(u, w)
  {
    match u
    case Arr(items) =>
      forall i | 0 <= i < |items| ensures Equiv(items[i], w.items[i]) {
        EquivTransitive(items[i], v.items[i], w.items[i]);
      }
    case Obj(m) =>
      forall e, g | e in m && g in w.members && e.key == g.key ensures Equiv(e.val, g.val) {
        assert e.key in Keys(v.members);
        var f :| f in v.members && f.key == e.key;
        EquivTransitive(e.val, f.val, g.val);
      }
    case _ =>
  }

  lemma SameMember(m: seq<Member>, e: Member, f: Member)
    requires DistinctKeys(m) && e in m && f in m && e.key == f.key
    ensures e == f
  {
    var i :| 0 <= i < |m| && m[i] == e;
    var j :| 0 <= j < |m| && m[j] == f;
  }

  // ---------------------------------------------------------------- own order rearranges

  lemma AscendingDistinct(lt: Order, s: seq<Member>)
    requires StrictTotal(lt, Keys(s)) && Ascending(lt, s)
    ensures DistinctKeys(s)
  {
    forall i, j | 0 <= i < j < |s| ensures s[i].key != s[j].key {
      assert s[i] in s && s[i].key in Keys(s);
    }
  }

  lemma {:induction false} NamePartDistinct(s: seq<Member>)
    requires DistinctKeys(s)
    ensures DistinctKeys(NamePart(s))
  {
    if s != [] {
      NamePartDistinct(s[1..]);
      forall e | e in s[1..] ensures e.key != s[0].key {}
    }
  }

  lemma OwnOrderMembers(s: seq<Member>)
    requires DistinctKeys(s)
    ensures forall e :: e in OwnOrder(s) <==> e in s
    ensures DistinctKeys(OwnOrder(s))
    ensures Ascending(NumericLess, Sort(NumericLess, IndexPart(s)))
  {
    var index := IndexPart(s);
    var sorted := Sort(NumericLess, index);
    SameElements(sorted, index);
    NumericStrictTotal(Keys(index));
    SortAscends(NumericLess, index);
    assert Keys(sorted) == Keys(index);
    AscendingDistinct(NumericLess, sorted);
    NamePartDistinct(s);
    forall i, j | 0 <= i < |sorted| && 0 <= j < |NamePart(s)| ensures sorted[i].key != NamePart(s)[j].key {
      assert sorted[i] in sorted && NamePart(s)[j] in NamePart(s);
    }
  }

  lemma SortMembers(s: seq<Member>)
    requires DistinctKeys(s)
    ensures forall e :: e in Sort(Less, s) <==> e in s
    ensures DistinctKeys(Sort(Less, s)) && Ascending(Less, Sort(Less, s))
  {
    SameElements(Sort(Less, s), s);
    LessStrictTotal(Keys(s));
    SortAscends(Less, s);
    LessStrictTotal(Keys(Sort(Less, s)));
    AscendingDistinct(Less, Sort(Less, s));
  }

  /** `n` lists the members of `m`, in some order, with each value replaced by an equivalent one. */
  ghost predicate Rearranged(m: seq<Member>, n: seq<Member>) {
    && DistinctKeys(m) && DistinctKeys(n) && Keys(m) == Keys(n)
    && forall e, f :: e in m && f in n && e.key == f.key ==> Equiv(e.val, f.val) && Valid(f.val)
  }

  lemma RearrangedBy(m: seq<Member>, mapped: seq<Member>, n: seq<Member>)
    requires DistinctKeys(m) && DistinctKeys(n) && |mapped| == |m|
    requires forall i :: 0 <= i < |m| ==>
      mapped[i].key == m[i].key && Equiv(m[i].val, mapped[i].val) && Valid(mapped[i].val)
    requires forall e :: e in n <==> e in mapped
    ensures Rearranged(m, n)
  {
    forall k ensures k in Keys(m) <==> k in Keys(n) {
      if k in Keys(m) {
        var e :| e in m && e.key == k;
        var i :| 0 <= i < |m| && m[i] == e;
        assert mapped[i] in mapped && mapped[i] in n;
      }
      if k in Keys(n) {
        var e :| e in n && e.key == k;
        var i :| 0 <= i < |m| && mapped[i] == e;
        assert m[i] in m;
      }
    }
    forall e, f | e in m && f in n && e.key == f.key ensures Equiv(e.val, f.val) && Valid(f.val) {
      var i :| 0 <= i < |m| && mapped[i] == f;
      assert m[i] in m;
      SameMember(m, e, m[i]);
    }
  }

  /** Reading a value in own-property order changes nothing but the order of members. */
  lemma {:induction false} OwnViewEquiv(v: Value)
    requires Valid(v)
    ensures Equiv(v, OwnView(v)) && Valid(OwnView(v))
  {
    match v
    case Arr(items) =>
      forall i | 0 <= i < |items| ensures Equiv(items[i], OwnView(items[i])) && Valid(OwnView(items[i])) {
        OwnViewEquiv(items[i]);
      }
    case Obj(m) =>
      var mapped := OwnViewMembers(m);
      forall i | 0 <= i < |m| ensures Equiv(m[i].val, mapped[i].val) && Valid(mapped[i].val) {
        OwnViewEquiv(m[i].val);
      }
      OwnOrderMembers(mapped);
      RearrangedBy(m, mapped, OwnOrder(mapped));
      ObjEquiv(m, OwnOrder(mapped));
    case _ =>
  }

  lemma ObjEquiv(m: seq<Member>, n: seq<Member>)
    requires Rearranged(m, n)
    ensures Equiv(Obj(m), Obj(n)) && Valid(Obj(n))
  {
    forall f | f in n ensures Valid(f.val) {
      assert f.key in Keys(m);
      var e :| e in m && e.key == f.key;
    }
  }

  /** Sorting keys changes nothing but the order of members. */
  lemma {:induction false} SortKeysEquiv(v: Value)
    requires Valid(v)
    ensures Equiv(v, SortKeys(v)) && Valid(SortKeys(v))
  {
    match v
    case Arr(items) =>
      forall i | 0 <= i < |items| ensures Equiv(items[i], SortKeys(items[i])) && Valid(SortKeys(items[i])) {
        SortKeysEquiv(items[i]);
      }
    case Obj(m) =>
      var mapped := SortKeysMembers(m);
      forall i | 0 <= i < |m| ensures Equiv(m[i].val, mapped[i].val) && Valid(mapped[i].val) {
        SortKeysEquiv(m[i].val);
      }
      OwnOrderMembers(mapped);
      SortMembers(OwnOrder(mapped));
      RearrangedBy(m, mapped, Sort(Less, OwnOrder(mapped)));
      ObjEquiv(m, Sort(Less, OwnOrder(mapped)));
    case _ =>
  }

  /** `sortKeys` forgets the order of members at every depth. */
  lemma {:induction false} SortKeysForgetsOrder(v: Value, w: Value)
    requires Valid(v) && Valid(w) && Equiv(v, w)
    ensures SortKeys(v) == SortKeys(w)
  {
    match v
    case Arr(items) =>
      forall i | 0 <= i < |items| ensures SortKeys(items[i]) == SortKeys(w.items[i]) {
        SortKeysForgetsOrder(items[i], w.items[i]);
      }
      assert SortKeysItems(items) == SortKeysItems(w.items);
    case Obj(m) =>
      var n := w.members;
      var a, b := SortKeysMembers(m), SortKeysMembers(n);
      forall e, f | e in m && f in n && e.key == f.key ensures SortKeys(e.val) == SortKeys(f.val) {
        SortKeysForgetsOrder(e.val, f.val);
      }
      SortedMembersIncluded(m, n);
      SortedMembersIncluded(n, m);
      OwnOrderMembers(a);
      OwnOrderMembers(b);
      SortMembers(OwnOrder(a));
      SortMembers(OwnOrder(b));
      LessStrictTotal(Keys(Sort(Less, OwnOrder(a))));
      AscendingUnique(Less, Sort(Less, OwnOrder(a)), Sort(Less, OwnOrder(b)));
    case _ =>
  }

  lemma SortedMembersIncluded(m: seq<Member>, n: seq<Member>)
    requires Keys(m) <= Keys(n)
    requires forall e, f :: e in m && f in n && e.key == f.key ==> SortKeys(e.val) == SortKeys(f.val)
    ensures forall e :: e in SortKeysMembers(m) ==> e in SortKeysMembers(n)
  {
    forall e | e in SortKeysMembers(m) ensures e in SortKeysMembers(n) {
      var i :| 0 <= i < |m| && SortKeysMembers(m)[i] == e;
      SortedMemberShared(m[i], n);
    }
  }

  lemma SortedMemberShared(d: Member, n: seq<Member>)
    requires d.key in Keys(n)
    requires forall f :: f in n && f.key == d.key ==> SortKeys(f.val) == SortKeys(d.val)
    ensures Member(d.key, SortKeys(d.val)) in SortKeysMembers(n)
  {
    var f :| f in n && f.key == d.key;
    var j :| 0 <= j < |n| && n[j] == f;
    assert SortKeysMembers(n)[j] == Member(d.key, SortKeys(d.val));
  }

  /** The canonical text decides equality up to key order. */
  lemma {:induction false} CanonicalTextDecides(v: Value, w: Value)
    requires Valid(v) && Valid(w)
    ensures CanonicalJson(v) == CanonicalJson(w) <==> Equiv(v, w)
  {
    if Equiv(v, w) {
      SortKeysForgetsOrder(v, w);
    }
    if CanonicalJson(v) == CanonicalJson(w) {
      var x, y := SortKeys(v), SortKeys(w);
      SortKeysEquiv(v);
      SortKeysEquiv(w);
      OwnViewEquiv(x);
      OwnViewEquiv(y);
      PrintInjective(OwnView(x), OwnView(y));
      EquivTransitive(v, x, OwnView(x));
      EquivTransitive(w, y, OwnView(y));
      EquivSymmetric(w, OwnView(y));
      EquivTransitive(v, OwnView(x), w);
    }
  }

  lemma {:induction false} SortKeysIdempotent(v: Value)
    requires Valid(v)
    ensures SortKeys(SortKeys(v)) == SortKeys(v)
  {
    SortKeysEquiv(v);
    SortKeysForgetsOrder(v, SortKeys(v));
  }

  // ---------------------------------------------------------------- when plain printing is canonical

  /** Every object lists its non-index keys in ascending code-unit order. */
  ghost predicate CanonicalOrder(v: Value) {
    match v
    case Arr(items) => forall x :: x in items ==> CanonicalOrder(x)
    case Obj(m) => Ascending(Less, NamePart(m)) && forall e :: e in m ==> CanonicalOrder(e.val)
    case _ => true
  }

  lemma {:induction false} NamePartConcat(s: seq<Member>, t: seq<Member>)
    ensures NamePart(s + t) == NamePart(s) + NamePart(t)
  {
    if s == [] {
      assert s + t == t;
    } else {
      assert (s + t)[1..] == s[1..] + t;
      NamePartConcat(s[1..], t);
    }
  }

  lemma {:induction false} NamePartOfNames(s: seq<Member>)
    requires forall e :: e in s ==> !IsIndex(e.key)
    ensures NamePart(s) == s
  {
    if s != [] {
      assert s[0] in s && s == [s[0]] + s[1..];
      NamePartOfNames(s[1..]);
    }
  }

  lemma {:induction false} NamePartOfIndices(s: seq<Member>)
    requires forall e :: e in s ==> IsIndex(e.key)
    ensures NamePart(s) == []
  {
    if s != [] {
      assert s[0] in s;
      NamePartOfIndices(s[1..]);
    }
  }

  lemma NamePartOfOwnOrder(s: seq<Member>)
    requires DistinctKeys(s)
    ensures NamePart(OwnOrder(s)) == NamePart(s)
  {
    var sorted := Sort(NumericLess, IndexPart(s));
    SameElements(sorted, IndexPart(s));
    NamePartOfIndices(sorted);
    NamePartOfNames(NamePart(s));
    NamePartConcat(sorted, NamePart(s));
    assert [] + NamePart(s) == NamePart(s);
  }

  lemma {:induction false} NamePartAscends(s: seq<Member>)
    requires Ascending(Less, s)
    ensures Ascending(Less, NamePart(s))
  {
    if s != [] {
      var rest := NamePart(s[1..]);
      NamePartAscends(s[1..]);
      forall i | 0 <= i < |rest| ensures Less(s[0].key, rest[i].key) {
        assert rest[i] in rest;
        var j :| 0 <= j < |s[1..]| && s[1..][j] == rest[i];
        assert s[j + 1] == rest[i];
      }
    }
  }

  ghost predicate SameKeyList(s: seq<Member>, t: seq<Member>) {
    |s| == |t| && forall i :: 0 <= i < |s| ==> s[i].key == t[i].key
  }

  lemma SameKeyListCons(d: Member, s: seq<Member>, e: Member, t: seq<Member>)
    requires SameKeyList(s, t) && d.key == e.key
    ensures SameKeyList([d] + s, [e] + t)
  {
  }

  lemma {:induction false} NamePartKeys(s: seq<Member>, t: seq<Member>)
    requires SameKeyList(s, t)
    ensures SameKeyList(NamePart(s), NamePart(t))
  {
    if s != [] {
      NamePartKeys(s[1..], t[1..]);
      var a, b := NamePart(s[1..]), NamePart(t[1..]);
      if IsIndex(s[0].key) {
        assert NamePart(s) == a && NamePart(t) == b;
      } else {
        SameKeyListCons(s[0], a, t[0], b);
      }
    }
  }

  lemma AscendingSameKeys(s: seq<Member>, t: seq<Member>)
    requires SameKeyList(s, t)
    ensures Ascending(Less, s) <==> Ascending(Less, t)
  {
  }

  /** Own order depends on the members of the index part and the list of the name part. */
  lemma OwnOrderEqual(p: seq<Member>, q: seq<Member>)
    requires DistinctKeys(p) && DistinctKeys(q)
    ensures OwnOrder(p) == OwnOrder(q) <==>
      NamePart(p) == NamePart(q) && forall e :: e in p <==> e in q
  {
    OwnOrderMembers(p);
    OwnOrderMembers(q);
    if OwnOrder(p) == OwnOrder(q) {
      NamePartOfOwnOrder(p);
      NamePartOfOwnOrder(q);
      forall e ensures e in p <==> e in q { assert e in p <==> e in OwnOrder(p); }
    }
    if NamePart(p) == NamePart(q) && forall e :: e in p <==> e in q {
      var a, b := Sort(NumericLess, IndexPart(p)), Sort(NumericLess, IndexPart(q));
      SameElements(a, IndexPart(p));
      SameElements(b, IndexPart(q));
      NumericStrictTotal(Keys(a));
      AscendingUnique(NumericLess, a, b);
    }
  }

  /** The members that `JSON.stringify` prints for an object, and for its sorted copy. */
  function PlainMembers(m: seq<Member>): seq<Member> {
    OwnViewMembers(m)
  }

  function CanonicalMembers(m: seq<Member>): seq<Member> {
    OwnViewMembers(Sort(Less, OwnOrder(SortKeysMembers(m))))
  }

  lemma PlainMemberOf(m: seq<Member>, f: Member)
    requires f in m
    ensures Member(f.key, OwnView(f.val)) in PlainMembers(m)
  {
    var i :| 0 <= i < |m| && m[i] == f;
    assert PlainMembers(m)[i] == Member(f.key, OwnView(f.val));
  }

  lemma PlainMemberFrom(m: seq<Member>, e: Member) returns (f: Member)
    requires e in PlainMembers(m)
    ensures f in m && e == Member(f.key, OwnView(f.val))
  {
    var i :| 0 <= i < |m| && PlainMembers(m)[i] == e;
    f := m[i];
  }

  lemma CanonicalMemberOf(m: seq<Member>, f: Member)
    requires DistinctKeys(m) && f in m
    ensures Member(f.key, OwnView(SortKeys(f.val))) in CanonicalMembers(m)
  {
    var mapped := SortKeysMembers(m);
    OwnOrderMembers(mapped);
    SortMembers(OwnOrder(mapped));
    var j :| 0 <= j < |m| && m[j] == f;
    assert mapped[j] in mapped;
    PlainMemberOf(Sort(Less, OwnOrder(mapped)), mapped[j]);
  }

  lemma CanonicalMemberFrom(m: seq<Member>, e: Member) returns (f: Member)
    requires DistinctKeys(m) && e in CanonicalMembers(m)
    ensures f in m && e == Member(f.key, OwnView(SortKeys(f.val)))
  {
    var mapped := SortKeysMembers(m);
    OwnOrderMembers(mapped);
    SortMembers(OwnOrder(mapped));
    var g := PlainMemberFrom(Sort(Less, OwnOrder(mapped)), e);
    var j :| 0 <= j < |m| && mapped[j] == g;
    f := m[j];
  }

  lemma CanonicalMembersAscend(m: seq<Member>)
    requires DistinctKeys(m)
    ensures DistinctKeys(CanonicalMembers(m)) && Ascending(Less, NamePart(CanonicalMembers(m)))
  {
    var mapped := SortKeysMembers(m);
    OwnOrderMembers(mapped);
    SortMembers(OwnOrder(mapped));
    NamePartAscends(CanonicalMembers(m));
  }

  /** Plain printing equals canonical printing exactly on values in canonical key order. */
  lemma {:induction false} PlainIsCanonical(v: Value)
    requires Valid(v)
    ensures OwnView(v) == OwnView(SortKeys(v)) <==> CanonicalOrder(v)
  {
    match v
    case Arr(items) =>
      forall i | 0 <= i < |items|
        ensures OwnView(items[i]) == OwnView(SortKeys(items[i])) <==> CanonicalOrder(items[i])
      {
        PlainIsCanonical(items[i]);
      }
      var a, b := OwnViewItems(items), OwnViewItems(SortKeysItems(items));
      assert a == b <==> forall i :: 0 <= i < |items| ==> a[i] == b[i];
    case Obj(m) =>
      forall e | e in m ensures OwnView(e.val) == OwnView(SortKeys(e.val)) <==> CanonicalOrder(e.val) {
        PlainIsCanonical(e.val);
      }
      PlainIsCanonicalObj(m);
    case _ =>
  }

  /** Plain and canonical members coincide as sets exactly when every value is canonical. */
  lemma SameMemberSets(m: seq<Member>)
    requires DistinctKeys(m)
    requires forall e :: e in m ==> (OwnView(e.val) == OwnView(SortKeys(e.val)) <==> CanonicalOrder(e.val))
    ensures (forall e :: e in PlainMembers(m) <==> e in CanonicalMembers(m))
      <==> forall e :: e in m ==> CanonicalOrder(e.val)
  {
    if forall e :: e in PlainMembers(m) <==> e in CanonicalMembers(m) {
      forall e | e in m ensures CanonicalOrder(e.val) {
        PlainMemberOf(m, e);
        var f := CanonicalMemberFrom(m, Member(e.key, OwnView(e.val)));
        SameMember(m, e, f);
      }
    }
    if forall e :: e in m ==> CanonicalOrder(e.val) {
      forall e ensures e in PlainMembers(m) <==> e in CanonicalMembers(m) {
        if e in PlainMembers(m) {
          var f := PlainMemberFrom(m, e);
          CanonicalMemberOf(m, f);
        }
        if e in CanonicalMembers(m) {
          var f := CanonicalMemberFrom(m, e);
          PlainMemberOf(m, f);
        }
      }
    }
  }

  lemma PlainIsCanonicalObj(m: seq<Member>)
    requires DistinctKeys(m)
    requires forall e :: e in m ==> (OwnView(e.val) == OwnView(SortKeys(e.val)) <==> CanonicalOrder(e.val))
    ensures OwnOrder(PlainMembers(m)) == OwnOrder(CanonicalMembers(m)) <==>
      Ascending(Less, NamePart(m)) && forall e :: e in m ==> CanonicalOrder(e.val)
  {
    var p, q := PlainMembers(m), CanonicalMembers(m);
    CanonicalMembersAscend(m);
    OwnOrderEqual(p, q);
    SameMemberSets(m);
    NamePartKeys(m, p);
    AscendingSameKeys(NamePart(m), NamePart(p));
    if Ascending(Less, NamePart(m)) && forall e :: e in p <==> e in q {
      LessStrictTotal(Keys(NamePart(p)));
      AscendingUnique(Less, NamePart(p), NamePart(q));
    }
  }

  lemma {:induction false} StringifyIsCanonical(v: Value)
    requires Valid(v)
    ensures Stringify(v) == CanonicalJson(v) <==> CanonicalOrder(v)
  {
    SortKeysEquiv(v);
    OwnViewEquiv(v);
    OwnViewEquiv(SortKeys(v));
    PrintInjective(OwnView(v), OwnView(SortKeys(v)));
    PlainIsCanonical(v);
  }
}
