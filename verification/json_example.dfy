/** One printed text, written out in code units. */
module JsonExample {
  import opened Json

  const NINE := Member([57], Obj([]))
  const TEN := Member([49, 48], Arr([Null, Bool(true)]))
  const NAME := Member([98], Str([10]))

  /** `{"9":{},"10":[null,true],"b":"\n"}`. */
  const TEXT: Text := [123]
    + ([34, 57, 34, 58, 123, 125]
       + ([44, 34, 49, 48, 34, 58, 91, 110, 117, 108, 108, 44, 116, 114, 117, 101, 93]
          + ([44, 34, 98, 34, 58, 34, 92, 110, 34] + [125])))

  lemma Joined(p: Text, k: Text, v: Text, rest: Text)
    ensures p + (k + ([58] + (v + rest))) == (p + k + [58] + v) + rest
  {
  }

  /** What is printed of one member, with what separates it from the text before. */
  function MemberText(e: Member, first: bool): Text {
    (if first then [QUOTE] else [44, QUOTE]) + QuoteBody(e.key) + [58] + Print(e.val)
  }

  lemma PrintedMember(e: Member, s: seq<Member>, first: bool)
    ensures PrintMembers([], first) == [125]
    ensures PrintMembers([e] + s, first) == MemberText(e, first) + PrintMembers(s, false)
  {
    assert ([e] + s)[1..] == s;
    Joined(if first then [QUOTE] else [44, QUOTE], QuoteBody(e.key), Print(e.val), PrintMembers(s, false));
  }

  lemma Quoted()
    ensures QuoteBody(NINE.key) == [57, 34] && QuoteBody(TEN.key) == [49, 48, 34] && QuoteBody(NAME.key) == [98, 34]
    ensures QuoteBody([10]) == [92, 110, 34]
  {
    var t: Text := [48];
    assert NINE.key[1..] == [] && NAME.key[1..] == [] && TEN.key[1..] == t && t[1..] == [];
    assert QuoteBody(t) == [48, 34];
    var n: Text := [10];
    assert n[1..] == [];
  }

  lemma ItemsPrinted()
    ensures Print(TEN.val) == [91, 110, 117, 108, 108, 44, 116, 114, 117, 101, 93]
  {
    var items := [Null, Bool(true)];
    assert items[1..] == [Bool(true)] && [Bool(true)][1..] == [];
    assert PrintItems([Bool(true)], false) == [44, 116, 114, 117, 101, 93];
  }

  lemma MembersPrinted()
    ensures MemberText(NINE, true) == [34, 57, 34, 58, 123, 125]
    ensures MemberText(TEN, false) == [44, 34, 49, 48, 34, 58, 91, 110, 117, 108, 108, 44, 116, 114, 117, 101, 93]
    ensures MemberText(NAME, false) == [44, 34, 98, 34, 58, 34, 92, 110, 34]
  {
    Quoted();
    ItemsPrinted();
    assert Print(NINE.val) == [123, 125];
    assert Print(NAME.val) == [34, 92, 110, 34];
  }

  /** Braces, brackets, quotes, colons, commas and escapes as `JSON.stringify` writes them. */
  lemma PrintedExample()
    ensures Print(Obj([NINE, TEN, NAME])) == TEXT
  {
    PrintedMember(NAME, [], false);
    PrintedMember(TEN, [NAME], false);
    PrintedMember(NINE, [TEN, NAME], true);
    assert [NAME] + [] == [NAME] && [TEN] + [NAME] == [TEN, NAME] && [NINE] + [TEN, NAME] == [NINE, TEN, NAME];
    MembersPrinted();
  }
}
