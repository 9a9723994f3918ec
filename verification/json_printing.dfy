/** `JSON.stringify` is unambiguous: a text has at most one reading. */
module JsonPrinting {
  import opened Json

  /** The first token of a quoted string body and what follows it. */
  function Token(s: Text): Text {
    if s == [] then [QUOTE]
    else if |s| > 1 && High(s[0]) && Low(s[1]) then [s[0], s[1]]
    else QuoteUnit(s[0])
  }

  function TokenSize(s: Text): (n: nat)
    ensures n <= |s| && (s != [] ==> n > 0)
  {
    if s == [] then 0 else if |s| > 1 && High(s[0]) && Low(s[1]) then 2 else 1
  }

  lemma UnicodeEscapeInjective(u: Unit, w: Unit)
    requires UnicodeEscape(u) == UnicodeEscape(w)
    ensures u == w
  {
    var a, b := UnicodeEscape(u), UnicodeEscape(w);
    assert a[2] == b[2] && a[3] == b[3] && a[4] == b[4] && a[5] == b[5];
    assert u / 16 / 16 / 16 == w / 16 / 16 / 16 && u / 16 / 16 % 16 == w / 16 / 16 % 16;
    assert u / 16 / 16 == w / 16 / 16;
  }

  lemma QuoteUnitUnambiguous(u: Unit, w: Unit, r: Text, q: Text)
    requires QuoteUnit(u) + r == QuoteUnit(w) + q
    ensures u == w && r == q
  {
    var a, b := QuoteUnit(u), QuoteUnit(w);
    assert (a + r)[0] == (b + q)[0];
    if |a| > 1 {
      assert (a + r)[1] == (b + q)[1];
    }
    assert |a| == |b|;
    assert a == (a + r)[..|a|] && b == (b + q)[..|b|];
    assert r == (a + r)[|a|..] && q == (b + q)[|b|..];
    if |a| == 6 { UnicodeEscapeInjective(u, w); }
  }

  lemma TokenUnambiguous(s: Text, t: Text, r: Text, q: Text)
    requires Token(s) + r == Token(t) + q
    ensures r == q && TokenSize(s) == TokenSize(t) && s[..TokenSize(s)] == t[..TokenSize(t)]
  {
    var a, b := Token(s), Token(t);
    assert (a + r)[0] == (b + q)[0];
    if TokenSize(s) == 1 && TokenSize(t) == 1 {
      QuoteUnitUnambiguous(s[0], t[0], r, q);
    } else if TokenSize(s) == 2 {
      assert (a + r)[1] == (b + q)[1];
      assert r == (a + r)[2..] && q == (b + q)[2..];
    } else {
      assert r == (a + r)[1..] && q == (b + q)[1..];
    }
  }

  function AfterToken(s: Text): Text {
    if s == [] then [] else QuoteBody(s[TokenSize(s)..])
  }

  lemma QuoteBodyToken(s: Text)
    ensures QuoteBody(s) == Token(s) + AfterToken(s)
  {
    if s == [] {
      assert [QUOTE] + [] == [QUOTE];
    }
  }

  lemma QuoteBodySplit(s: Text, r: Text)
    ensures QuoteBody(s) + r == Token(s) + (AfterToken(s) + r)
  {
    var a, b := Token(s), AfterToken(s);
    QuoteBodyToken(s);
    assert (a + b) + r == a + (b + r);
  }

  lemma {:induction false} QuoteBodyUnambiguous(s: Text, t: Text, r: Text, q: Text)
    requires QuoteBody(s) + r == QuoteBody(t) + q
    ensures s == t && r == q
  {
    QuoteBodySplit(s, r);
    QuoteBodySplit(t, q);
    TokenUnambiguous(s, t, AfterToken(s) + r, AfterToken(t) + q);
    var n := TokenSize(s);
    if s == [] {
      assert [] + r == r && [] + q == q;
    } else {
      QuoteBodyUnambiguous(s[n..], t[n..], r, q);
      assert s == s[..n] + s[n..] && t == t[..n] + t[n..];
    }
  }

  /** What may follow a printed value: nothing, a comma or a closing bracket. */
  predicate Ends(r: Text) {
    r == [] || r[0] == 44 || r[0] == 93 || r[0] == 125
  }

  lemma {:induction false} NumberUnambiguous(s: Text, t: Text, r: Text, q: Text)
    requires forall u :: u in s ==> NumUnit(u)
    requires forall u :: u in t ==> NumUnit(u)
    requires Ends(r) && Ends(q) && s + r == t + q
    ensures s == t && r == q
  {
    assert t != [] ==> t[0] in t && (t + q)[0] == t[0];
    if s == [] {
      assert s + r == r && (t == [] ==> t + q == q);
    } else {
      assert s[0] in s && (s + r)[0] == s[0];
      assert t == [] ==> t + q == q;
      assert (s + r)[1..] == s[1..] + r && (t + q)[1..] == t[1..] + q;
      NumberUnambiguous(s[1..], t[1..], r, q);
      assert s == [s[0]] + s[1..] && t == [t[0]] + t[1..];
    }
  }

  /** The first code unit of a printed value tells its constructor. */
  lemma PrintHead(v: Value)
    requires Valid(v)
    ensures Print(v) != []
    ensures var u := Print(v)[0];
      && (v.Null? <==> u == 110) && (v == Bool(true) <==> u == 116) && (v == Bool(false) <==> u == 102)
      && (v.Num? <==> NumUnit(u)) && (v.Str? <==> u == QUOTE) && (v.Arr? <==> u == 91) && (v.Obj? <==> u == 123)
      && u != 93 && u != 125
  {
    if v.Num? { assert v.token[0] in v.token; }
  }

  /** Equal concatenations stay equal when both lose their first `n` units. */
  lemma DropBoth(n: nat, a: Text, r: Text, b: Text, q: Text)
    requires a + r == b + q && n <= |a| && n <= |b|
    ensures a[n..] + r == b[n..] + q
    ensures (n == |a| ==> a[n..] + r == r) && (n == |b| ==> b[n..] + q == q)
  {
    assert (a + r)[n..] == a[n..] + r && (b + q)[n..] == b[n..] + q;
  }

  lemma SplitItems(s: seq<Value>, first: bool)
    requires s != []
    ensures var n := if first then 0 else 1;
      && n < |PrintItems(s, first)|
      && PrintItems(s, first)[n..] == Print(s[0]) + PrintItems(s[1..], false)
  {
    var t := Print(s[0]) + PrintItems(s[1..], false);
    assert PrintItems(s, first) == (if first then [] else [44]) + t;
    assert |PrintItems(s[1..], false)| > 0;
  }

  lemma SplitMembers(s: seq<Member>, first: bool)
    requires s != []
    ensures var n := if first then 1 else 2;
      && n < |PrintMembers(s, first)|
      && PrintMembers(s, first)[n..]
         == QuoteBody(s[0].key) + ([58] + (Print(s[0].val) + PrintMembers(s[1..], false)))
  {
    var t := QuoteBody(s[0].key) + ([58] + (Print(s[0].val) + PrintMembers(s[1..], false)));
    assert PrintMembers(s, first) == (if first then [QUOTE] else [44, QUOTE]) + t;
  }

  lemma {:induction false} PrintUnambiguous(v: Value, w: Value, r: Text, q: Text)
    requires Valid(v) && Valid(w) && Ends(r) && Ends(q)
    requires Print(v) + r == Print(w) + q
    ensures v == w && r == q
    decreases v, 2
  {
    PrintHead(v);
    PrintHead(w);
    var a, b := Print(v), Print(w);
    assert a[0] == (a + r)[0] == (b + q)[0] == b[0];
    DropBoth(1, a, r, b, q);
    match v
    case Num(t) => NumberUnambiguous(t, w.token, r, q);
    case Str(s) => QuoteBodyUnambiguous(s, w.s, r, q);
    case Arr(items) => ItemsUnambiguous(items, w.items, true, r, q);
    case Obj(members) => MembersUnambiguous(members, w.members, true, r, q);
    case _ => DropBoth(|a|, a, r, b, q);
  }

  lemma {:induction false} ItemsUnambiguous(s: seq<Value>, t: seq<Value>, first: bool, r: Text, q: Text)
    requires (forall x :: x in s ==> Valid(x)) && (forall x :: x in t ==> Valid(x))
    requires PrintItems(s, first) + r == PrintItems(t, first) + q
    ensures s == t && r == q
    decreases s, 0
  {
    var a, b := PrintItems(s, first), PrintItems(t, first);
    assert a[0] == (a + r)[0] == (b + q)[0] == b[0];
    ItemsHead(s, first);
    ItemsHead(t, first);
    if s == [] {
      DropBoth(1, a, r, b, q);
    } else {
      var n := if first then 0 else 1;
      SplitItems(s, first);
      SplitItems(t, first);
      DropBoth(n, a, r, b, q);
      var x, y := PrintItems(s[1..], false), PrintItems(t[1..], false);
      ItemUnambiguous(s[0], t[0], x, y, r, q);
      ItemsUnambiguous(s[1..], t[1..], false, r, q);
      assert s == [s[0]] + s[1..] && t == [t[0]] + t[1..];
    }
  }

  lemma {:induction false} ItemUnambiguous(v: Value, w: Value, x: Text, y: Text, r: Text, q: Text)
    requires Valid(v) && Valid(w) && x != [] && y != [] && Ends(x) && Ends(y)
    requires Print(v) + x + r == Print(w) + y + q
    ensures v == w && x + r == y + q
    decreases v, 3
  {
    assert Print(v) + x + r == Print(v) + (x + r) && Print(w) + y + q == Print(w) + (y + q);
    PrintUnambiguous(v, w, x + r, y + q);
  }

  lemma ItemsHead(s: seq<Value>, first: bool)
    requires forall x :: x in s ==> Valid(x)
    ensures PrintItems(s, first) != []
    ensures s == [] <==> PrintItems(s, first)[0] == 93
  {
    if s != [] { PrintHead(s[0]); }
  }

  lemma {:induction false} MembersUnambiguous(s: seq<Member>, t: seq<Member>, first: bool, r: Text, q: Text)
    requires (forall e :: e in s ==> Valid(e.val)) && (forall e :: e in t ==> Valid(e.val))
    requires PrintMembers(s, first) + r == PrintMembers(t, first) + q
    ensures s == t && r == q
    decreases s, 0
  {
    var a, b := PrintMembers(s, first), PrintMembers(t, first);
    assert a[0] == (a + r)[0] == (b + q)[0] == b[0];
    if s == [] {
      DropBoth(1, a, r, b, q);
    } else {
      var n := if first then 1 else 2;
      SplitMembers(s, first);
      SplitMembers(t, first);
      DropBoth(n, a, r, b, q);
      var x, y := PrintMembers(s[1..], false), PrintMembers(t[1..], false);
      MemberUnambiguous(s[0], t[0], x, y, r, q);
      MembersUnambiguous(s[1..], t[1..], false, r, q);
      assert s == [s[0]] + s[1..] && t == [t[0]] + t[1..];
    }
  }

  lemma {:induction false} MemberUnambiguous(d: Member, e: Member, x: Text, y: Text, r: Text, q: Text)
    requires Valid(d.val) && Valid(e.val) && x != [] && y != [] && Ends(x) && Ends(y)
    requires QuoteBody(d.key) + ([58] + (Print(d.val) + x)) + r == QuoteBody(e.key) + ([58] + (Print(e.val) + y)) + q
    ensures d == e && x + r == y + q
    decreases d, 3
  {
    var a, b := [58] + (Print(d.val) + x), [58] + (Print(e.val) + y);
    assert QuoteBody(d.key) + a + r == QuoteBody(d.key) + (a + r);
    assert QuoteBody(e.key) + b + q == QuoteBody(e.key) + (b + q);
    QuoteBodyUnambiguous(d.key, e.key, a + r, b + q);
    DropBoth(1, a, r, b, q);
    assert a[1..] + r == Print(d.val) + (x + r) && b[1..] + q == Print(e.val) + (y + q);
    PrintUnambiguous(d.val, e.val, x + r, y + q);
  }

  /** The printer is injective on valid values. */
  lemma {:induction false} PrintInjective(v: Value, w: Value)
    requires Valid(v) && Valid(w)
    ensures Print(v) == Print(w) <==> v == w
  {
    if Print(v) == Print(w) {
      assert Print(v) + [] == Print(w) + [];
      PrintUnambiguous(v, w, [], []);
    }
  }
}
