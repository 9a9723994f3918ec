/** JSON values as JavaScript sees them: own-property order, `JSON.stringify`, and the
    recursive key sort behind the payload checksum. */
module Json {

  /** A string is a sequence of UTF-16 code units. */
  type Unit = n: nat | n < 0x1_0000
  type Text = seq<Unit>

  /** A JSON value. The members of an object are listed in insertion order; a number is its
      canonical text. */
  datatype Value =
    | Null
    | Bool(b: bool)
    | Num(token: Text)
    | Str(s: Text)
    | Arr(items: seq<Value>)
    | Obj(members: seq<Member>)

  datatype Member = Member(key: Text, val: Value)

  // ---------------------------------------------------------------- members

  ghost function Keys(s: seq<Member>): set<Text> {
    set e | e in s :: e.key
  }

  ghost predicate DistinctKeys(s: seq<Member>) {
    forall i, j :: 0 <= i < j < |s| ==> s[i].key != s[j].key
  }

  ghost predicate ValidNum(t: Text) {
    t != [] && forall u :: u in t ==> NumUnit(u)
  }

  predicate NumUnit(u: Unit) {
    48 <= u <= 57 || u == 43 || u == 45 || u == 46 || u == 101
  }

  /** What every parsed payload satisfies: keys are distinct, number tokens look like numbers. */
  ghost predicate Valid(v: Value) {
    match v
    case Num(t) => ValidNum(t)
    case Arr(items) => forall x :: x in items ==> Valid(x)
    case Obj(members) => DistinctKeys(members) && forall e :: e in members ==> Valid(e.val)
    case _ => true
  }

  /** Equal up to the order of object members, at every depth. */
  ghost predicate Equiv(v: Value, w: Value) {
    match v
    case Arr(a) =>
      w.Arr? && |a| == |w.items| && forall i :: 0 <= i < |a| ==> Equiv(a[i], w.items[i])
    case Obj(m) =>
      && w.Obj?
      && Keys(m) == Keys(w.members)
      && forall e, f :: e in m && f in w.members && e.key == f.key ==> Equiv(e.val, f.val)
    case _ => v == w
  }

  // ---------------------------------------------------------------- sorting

  type Order = (Text, Text) -> bool

  function Insert(lt: Order, e: Member, s: seq<Member>): (r: seq<Member>)
    ensures multiset(r) == multiset{e} + multiset(s)
  {
    if s == [] then [e]
    else if lt(e.key, s[0].key) then [e] + s
    else
      var r := [s[0]] + Insert(lt, e, s[1..]);
      assert s == [s[0]] + s[1..];
      r
  }

  /** `Array.prototype.sort` with the comparison `lt`, on entries. */
  function Sort(lt: Order, s: seq<Member>): (r: seq<Member>)
    ensures multiset(r) == multiset(s)
  {
    if s == [] then [] else
      assert s == [s[0]] + s[1..];
      Insert(lt, s[0], Sort(lt, s[1..]))
  }

  ghost predicate Ascending(lt: Order, s: seq<Member>) {
    forall i, j :: 0 <= i < j < |s| ==> lt(s[i].key, s[j].key)
  }

  /** `lt` is a strict total order on the given keys. */
  ghost predicate StrictTotal(lt: Order, keys: set<Text>) {
    && (forall a :: a in keys ==> !lt(a, a))
    && (forall a, b :: a in keys && b in keys && a != b ==> lt(a, b) || lt(b, a))
    && (forall a, b, c :: a in keys && b in keys && c in keys && lt(a, b) && lt(b, c) ==> lt(a, c))
  }

  lemma SameElements<T>(s: seq<T>, t: seq<T>)
    requires multiset(s) == multiset(t)
    ensures |s| == |t| && forall x :: x in s <==> x in t
  {
    assert |multiset(s)| == |multiset(t)|;
    forall x ensures x in s <==> x in t {
      assert x in s <==> x in multiset(s);
      assert x in t <==> x in multiset(t);
    }
  }

  lemma ConsAscends(lt: Order, e: Member, s: seq<Member>)
    requires Ascending(lt, s) && forall j :: 0 <= j < |s| ==> lt(e.key, s[j].key)
    ensures Ascending(lt, [e] + s)
  {
  }

  lemma KeysIncluded(s: seq<Member>, t: seq<Member>)
    requires forall e :: e in s ==> e in t
    ensures Keys(s) <= Keys(t)
  {
  }

  lemma {:induction false} InsertAscends(lt: Order, e: Member, s: seq<Member>)
    requires StrictTotal(lt, Keys([e] + s)) && Ascending(lt, s) && e.key !in Keys(s)
    ensures Ascending(lt, Insert(lt, e, s))
  {
    if s != [] {
      assert e in [e] + s && forall f :: f in s ==> f in [e] + s;
      assert s[0] in s && s[0].key in Keys(s) && s[0].key in Keys([e] + s) && e.key in Keys([e] + s);
      if lt(e.key, s[0].key) {
        forall j | 0 <= j < |s| ensures lt(e.key, s[j].key) {
          assert s[j] in s && s[j].key in Keys([e] + s);
        }
        ConsAscends(lt, e, s);
      } else {
        var rest := s[1..];
        var r := Insert(lt, e, rest);
        assert forall f :: f in rest ==> f in s;
        KeysIncluded(rest, s);
        KeysIncluded([e] + rest, [e] + s);
        InsertAscends(lt, e, rest);
        forall j | 0 <= j < |r| ensures lt(s[0].key, r[j].key) {
          assert r[j] in multiset(r);
          assert r[j] == e || r[j] in rest;
        }
        ConsAscends(lt, s[0], r);
      }
    }
  }

  lemma {:induction false} SortAscends(lt: Order, s: seq<Member>)
    requires DistinctKeys(s) && StrictTotal(lt, Keys(s))
    ensures Ascending(lt, Sort(lt, s))
  {
    if s != [] {
      var rest := s[1..];
      assert Keys(rest) <= Keys(s) by { forall x | x in rest ensures x in s {} }
      SortAscends(lt, rest);
      SameElements(Sort(lt, rest), rest);
      var sorted := Sort(lt, rest);
      forall f | f in sorted ensures f.key != s[0].key {
        assert f in rest;
        var j :| 0 <= j < |rest| && rest[j] == f;
        assert s[j + 1] == f;
      }
      assert Keys([s[0]] + sorted) <= Keys(s) by {
        forall x | x in [s[0]] + sorted ensures x in s {
          if x != s[0] { assert x in rest; }
        }
      }
      InsertAscends(lt, s[0], sorted);
    }
  }

  lemma AscendingHead(lt: Order, s: seq<Member>, t: seq<Member>)
    requires StrictTotal(lt, Keys(s)) && Ascending(lt, s) && Ascending(lt, t)
    requires s != [] && t != [] && t[0] in s && s[0] in t
    ensures s[0] == t[0]
  {
    var i :| 0 <= i < |t| && t[i] == s[0];
    var j :| 0 <= j < |s| && s[j] == t[0];
    var a, b := s[0].key, t[0].key;
    assert a in Keys(s) && b in Keys(s);
    assert !(lt(a, b) && lt(b, a));
  }

  lemma AscendingTail(lt: Order, s: seq<Member>)
    requires StrictTotal(lt, Keys(s)) && Ascending(lt, s) && s != []
    ensures forall e :: e in s[1..] <==> e in s && e != s[0]
    ensures Keys(s[1..]) <= Keys(s)
  {
    assert s[0] in s;
    assert !lt(s[0].key, s[0].key) by { assert s[0].key in Keys(s); }
    forall e | e in s && e != s[0] ensures e in s[1..] {
      var i :| 0 <= i < |s| && s[i] == e;
      assert s[1..][i - 1] == e;
    }
  }

  /** An ascending list is determined by its set of members. */
  lemma {:induction false} AscendingUnique(lt: Order, s: seq<Member>, t: seq<Member>)
    requires StrictTotal(lt, Keys(s)) && Ascending(lt, s) && Ascending(lt, t)
    requires forall e :: e in s <==> e in t
    ensures s == t
  {
    assert t != [] ==> t[0] in t;
    assert s != [] ==> s[0] in s;
    if s != [] {
      AscendingHead(lt, s, t);
      assert Keys(t) == Keys(s);
      AscendingTail(lt, s);
      AscendingTail(lt, t);
      AscendingUnique(lt, s[1..], t[1..]);
      assert s == [s[0]] + s[1..] && t == [t[0]] + t[1..];
    }
  }

  // ---------------------------------------------------------------- the two key orders

  /** The default order of `Array.prototype.sort`: by UTF-16 code units. */
  predicate Less(a: Text, b: Text) {
    b != [] && (a == [] || a[0] < b[0] || (a[0] == b[0] && Less(a[1..], b[1..])))
  }

  lemma {:induction false} LessIrreflexive(a: Text)
    ensures !Less(a, a)
  {
    if a != [] { LessIrreflexive(a[1..]); }
  }

  lemma {:induction false} LessTotal(a: Text, b: Text)
    requires a != b
    ensures Less(a, b) || Less(b, a)
  {
    if a != [] && b != [] && a[0] == b[0] {
      assert a == [a[0]] + a[1..] && b == [b[0]] + b[1..];
      LessTotal(a[1..], b[1..]);
    }
  }

  lemma {:induction false} LessTransitive(a: Text, b: Text, c: Text)
    requires Less(a, b) && Less(b, c)
    ensures Less(a, c)
  {
    if a != [] && a[0] == b[0] == c[0] { LessTransitive(a[1..], b[1..], c[1..]); }
  }

  lemma LessStrictTotal(keys: set<Text>)
    ensures StrictTotal(Less, keys)
  {
    forall a ensures !Less(a, a) { LessIrreflexive(a); }
    forall a: Text, b: Text | a != b ensures Less(a, b) || Less(b, a) { LessTotal(a, b); }
    forall a: Text, b: Text, c: Text | Less(a, b) && Less(b, c) ensures Less(a, c) { LessTransitive(a, b, c); }
  }

  predicate IsDigits(k: Text) {
    forall i :: 0 <= i < |k| ==> 48 <= k[i] <= 57
  }

  function Decimal(k: Text): (n: nat)
    requires IsDigits(k)
  {
    if k == [] then 0 else
      10 * Decimal(k[..|k| - 1]) + (k[|k| - 1] - 48)
  }

  /** ECMA-262 array index: the canonical decimal text of an integer below 2^32 - 1. */
  predicate IsIndex(k: Text) {
    k != [] && IsDigits(k) && (k[0] != 48 || |k| == 1) && Decimal(k) < 0xFFFF_FFFF
  }

  predicate NumericLess(a: Text, b: Text) {
    IsIndex(a) && IsIndex(b) && Decimal(a) < Decimal(b)
  }

  lemma {:induction false} DecimalPositive(k: Text)
    requires k != [] && IsDigits(k) && k[0] != 48
    ensures Decimal(k) >= 1
  {
    if |k| > 1 { DecimalPositive(k[..|k| - 1]); }
  }

  /** Distinct array indices have distinct numeric values. */
  lemma {:induction false} DecimalInjective(a: Text, b: Text)
    requires a != [] && IsDigits(a) && (a[0] != 48 || |a| == 1)
    requires b != [] && IsDigits(b) && (b[0] != 48 || |b| == 1)
    requires Decimal(a) == Decimal(b)
    ensures a == b
  {
    var p, q := a[..|a| - 1], b[..|b| - 1];
    var x, y := a[|a| - 1] - 48, b[|b| - 1] - 48;
    assert 10 * Decimal(p) + x == 10 * Decimal(q) + y && 0 <= x < 10 && 0 <= y < 10;
    assert Decimal(p) == Decimal(q) && x == y;
    if p != [] { DecimalPositive(p); }
    if q != [] { DecimalPositive(q); }
    if p != [] && q != [] { DecimalInjective(p, q); }
    assert a == p + [a[|a| - 1]] && b == q + [b[|b| - 1]];
  }

  lemma NumericStrictTotal(keys: set<Text>)
    requires forall k :: k in keys ==> IsIndex(k)
    ensures StrictTotal(NumericLess, keys)
  {
    forall a, b | a in keys && b in keys && a != b ensures NumericLess(a, b) || NumericLess(b, a) {
      if Decimal(a) == Decimal(b) { DecimalInjective(a, b); }
    }
  }

  // ---------------------------------------------------------------- own-property order

  function IndexPart(s: seq<Member>): (r: seq<Member>)
    ensures forall e :: e in r <==> e in s && IsIndex(e.key)
    ensures DistinctKeys(s) ==> DistinctKeys(r)
  {
    if s == [] then [] else
      assert s == [s[0]] + s[1..];
      if IsIndex(s[0].key) then [s[0]] + IndexPart(s[1..]) else IndexPart(s[1..])
  }

  function NamePart(s: seq<Member>): (r: seq<Member>)
    ensures forall e :: e in r <==> e in s && !IsIndex(e.key)
  {
    if s == [] then [] else
      assert s == [s[0]] + s[1..];
      if IsIndex(s[0].key) then NamePart(s[1..]) else [s[0]] + NamePart(s[1..])
  }

  /** ECMA-262 section 10.1.11.1 (OrdinaryOwnPropertyKeys): array indices first, in ascending
      numeric order, then the other keys in insertion order. */
  function OwnOrder(s: seq<Member>): seq<Member> {
    Sort(NumericLess, IndexPart(s)) + NamePart(s)
  }

  /** The value as its readers see it: every object in own-property order. */
  function OwnView(v: Value): Value
    decreases v, 1
  {
    match v
    case Arr(items) => Arr(OwnViewItems(items))
    case Obj(members) => Obj(OwnOrder(OwnViewMembers(members)))
    case _ => v
  }

  function OwnViewItems(s: seq<Value>): (r: seq<Value>)
    ensures |r| == |s| && forall i :: 0 <= i < |s| ==> r[i] == OwnView(s[i])
    decreases s, 0
  {
    if s == [] then [] else [OwnView(s[0])] + OwnViewItems(s[1..])
  }

  function OwnViewMembers(s: seq<Member>): (r: seq<Member>)
    ensures |r| == |s| && forall i :: 0 <= i < |s| ==> r[i] == Member(s[i].key, OwnView(s[i].val))
    decreases s, 0
  {
    if s == [] then [] else [Member(s[0].key, OwnView(s[0].val))] + OwnViewMembers(s[1..])
  }

  /** `Object.keys(v).sort().map(k => [k, sortKeys(v[k])])`, rebuilt with `Object.fromEntries`. */
  function SortKeys(v: Value): Value
    decreases v, 1
  {
    match v
    case Arr(items) => Arr(SortKeysItems(items))
    case Obj(members) => Obj(Sort(Less, OwnOrder(SortKeysMembers(members))))
    case _ => v
  }

  function SortKeysItems(s: seq<Value>): (r: seq<Value>)
    ensures |r| == |s| && forall i :: 0 <= i < |s| ==> r[i] == SortKeys(s[i])
    decreases s, 0
  {
    if s == [] then [] else [SortKeys(s[0])] + SortKeysItems(s[1..])
  }

  function SortKeysMembers(s: seq<Member>): (r: seq<Member>)
    ensures |r| == |s| && forall i :: 0 <= i < |s| ==> r[i] == Member(s[i].key, SortKeys(s[i].val))
    decreases s, 0
  {
    if s == [] then [] else [Member(s[0].key, SortKeys(s[0].val))] + SortKeysMembers(s[1..])
  }

  // ---------------------------------------------------------------- printing

  const QUOTE := 34
  const BACKSLASH := 92

  function Hex(d: nat): Unit
    requires d < 16
  {
    if d < 10 then 48 + d else 87 + d
  }

  function UnicodeEscape(u: Unit): Text {
    [BACKSLASH, 117, Hex(u / 16 / 16 / 16), Hex(u / 16 / 16 % 16), Hex(u / 16 % 16), Hex(u % 16)]
  }

  predicate High(u: Unit) { 0xD800 <= u < 0xDC00 }

  predicate Low(u: Unit) { 0xDC00 <= u < 0xE000 }

  /** One code unit that is not part of a surrogate pair. */
  function QuoteUnit(u: Unit): Text {
    if u == 8 then [BACKSLASH, 98]
    else if u == 9 then [BACKSLASH, 116]
    else if u == 10 then [BACKSLASH, 110]
    else if u == 12 then [BACKSLASH, 102]
    else if u == 13 then [BACKSLASH, 114]
    else if u == QUOTE || u == BACKSLASH then [BACKSLASH, u]
    else if u < 32 || High(u) || Low(u) then UnicodeEscape(u)
    else [u]
  }

  /** ECMA-262 section 25.5.2.3 (QuoteJSONString), without the opening quote. */
  function QuoteBody(s: Text): Text {
    if s == [] then [QUOTE]
    else if |s| > 1 && High(s[0]) && Low(s[1]) then [s[0], s[1]] + QuoteBody(s[2..])
    else QuoteUnit(s[0]) + QuoteBody(s[1..])
  }

  /** ECMA-262 section 25.5.2, on a value whose members are already in own-property order. */
  function Print(v: Value): Text
    decreases v, 2
  {
    match v
    case Null => [110, 117, 108, 108]
    case Bool(b) => if b then [116, 114, 117, 101] else [102, 97, 108, 115, 101]
    case Num(t) => t
    case Str(s) => [QUOTE] + QuoteBody(s)
    case Arr(items) => [91] + PrintItems(items, true)
    case Obj(members) => [123] + PrintMembers(members, true)
  }

  function PrintItems(s: seq<Value>, first: bool): Text
    decreases s, 0
  {
    if s == [] then [93] else
      (if first then [] else [44]) + (Print(s[0]) + PrintItems(s[1..], false))
  }

  function PrintMembers(s: seq<Member>, first: bool): Text
    decreases s, 0
  {
    if s == [] then [125] else
      (if first then [QUOTE] else [44, QUOTE])
      + (QuoteBody(s[0].key) + ([58] + (Print(s[0].val) + PrintMembers(s[1..], false))))
  }

  function Stringify(v: Value): Text {
    Print(OwnView(v))
  }

  function CanonicalJson(v: Value): Text {
    Stringify(SortKeys(v))
  }
}
