/** A worked example of the parser on a concrete message: `ho speso 12 per pranzo` is caught by the
    first pattern, whose match starts at the space before the amount. */
module ParseExamples {
  import opened Common
  import opened Text
  import opened Regex
  import opened Categories
  import opened Parsing
  import opened Ledger
  import CategoryExamples

  const Lunch: string := "ho speso 12 per pranzo"

  /** The marks of the match: group 1 is ` 12`, group 2 is `per pranzo`. */
  const LunchMarks: Marks := map[0 := 8, 1 := 11, 2 := 12, 3 := 22]

  /** The items of the first pattern, written out. */
  lemma AmountFirstItems()
    ensures AmountFirst == [Mark(0), Rep(OneOf(['\U{20AC}']), 0, Some(1), true), Rep(Space, 0, None, true),
      Rep(Digit, 1, None, true), Rep(OneOf(".,"), 0, Some(1), true), Rep(Digit, 0, None, true),
      Mark(1), Rep(Space, 1, None, true), Mark(2), Rep(NotNewline, 1, None, true), Mark(3)]
  {
  }

  /** Before the amount pattern's digits come only a euro sign and whitespace: any match of the
      first pattern from `i` meets a digit after nothing but those. */
  lemma AmountFirstNeedsDigit(s: string, i: nat, m: Marks)
    requires i <= |s| && MatchFrom(AmountFirst, s, i, m).Some?
    ensures exists j :: (i <= j < |s| && IsDigit(s[j]) &&
      forall k :: i <= k < j ==> s[k] == '\U{20AC}' || IsSpace(s[k]))
  {
    AmountFirstItems();
    var p, r := AmountFirst[..3], AmountFirst[3..];
    assert p + r == AmountFirst;
    Reaches(p, r, s, i, m);
    var j: nat, m': Marks :| i <= j <= |s| && MatchFrom(r, s, j, m').Some? &&
      forall k :: i <= k < j ==> Admits(p, s[k]);
    assert RunLength(Digit, s, j, None) >= 1;
    forall k | i <= k < j ensures s[k] == '\U{20AC}' || IsSpace(s[k]) {
      AdmitsBeforeDigits(s[k]);
    }
  }

  /** The items before the digits admit a euro sign and whitespace, and nothing else. */
  lemma AdmitsBeforeDigits(c: char)
    requires Admits(AmountFirst[..3], c)
    ensures c == '\U{20AC}' || IsSpace(c)
  {
    AmountFirstItems();
    var p := AmountFirst[..3];
    assert p == [Mark(0), Rep(OneOf(['\U{20AC}']), 0, Some(1), true), Rep(Space, 0, None, true)];
    assert !ItemAdmits(p[0], c);
    assert p[1..] == [Rep(OneOf(['\U{20AC}']), 0, Some(1), true), Rep(Space, 0, None, true)];
    assert p[1..][1..] == [Rep(Space, 0, None, true)];
    assert p[1..][1..][1..] == [];
    assert Admits(p[1..], c);
    if !ItemAdmits(p[1..][0], c) {
      assert Admits(p[1..][1..], c);
      assert !Admits(p[1..][1..][1..], c);
      assert ItemAdmits(p[1..][1..][0], c);
    }
  }

  /** A character that can start a match of the amount: a digit, a euro sign or whitespace. */
  predicate AmountStart(c: char) {
    IsDigit(c) || c == '\U{20AC}' || IsSpace(c)
  }

  /** The message's characters before the space at 8 cannot start an amount, except the space at 2,
      which is followed by a letter. */
  lemma LunchHead(i: nat)
    requires i < 8
    ensures i != 2 ==> !AmountStart(Lunch[i])
    ensures i == 2 ==> !AmountStart(Lunch[3])
  {
    if i == 0 { assert Lunch[0] == 'h'; }
    else if i == 1 { assert Lunch[1] == 'o'; }
    else if i == 2 { assert Lunch[3] == 's'; }
    else if i == 3 { assert Lunch[3] == 's'; }
    else if i == 4 { assert Lunch[4] == 'p'; }
    else if i == 5 { assert Lunch[5] == 'e'; }
    else if i == 6 { assert Lunch[6] == 's'; }
    else { assert Lunch[7] == 'o'; }
  }

  /** The first pattern matches at no position before 8. */
  lemma LunchNoEarlierMatch(i: nat)
    requires i < 8
    ensures MatchFrom(AmountFirst, Lunch, i, map[]).None?
  {
    if MatchFrom(AmountFirst, Lunch, i, map[]).Some? {
      AmountFirstNeedsDigit(Lunch, i, map[]);
      var j :| i <= j < |Lunch| && IsDigit(Lunch[j]) &&
        forall k :: i <= k < j ==> Lunch[k] == '\U{20AC}' || IsSpace(Lunch[k]);
      LunchHead(i);
      assert AmountStart(Lunch[i]);
    }
  }

  /** An unbounded repeat over a run of `n` members of its class, ended by the end of the text or
      by a non-member, takes exactly `n` characters. */
  lemma {:induction false} RunOf(cls: CharClass, s: string, i: nat, n: nat)
    requires i + n <= |s|
    requires forall k :: i <= k < i + n ==> InClass(s[k], cls)
    requires i + n == |s| || !InClass(s[i + n], cls)
    ensures RunLength(cls, s, i, None) == n
    decreases n
  {
    if n > 0 {
      RunOf(cls, s, i + 1, n - 1);
    }
  }

  /** The runs the items take from position 8. */
  lemma LunchRuns()
    ensures RunLength(OneOf(['\U{20AC}']), Lunch, 8, Some(1)) == 0
    ensures RunLength(Space, Lunch, 8, None) == 1
    ensures RunLength(Digit, Lunch, 9, None) == 2
    ensures RunLength(OneOf(".,"), Lunch, 11, Some(1)) == 0
    ensures RunLength(Digit, Lunch, 11, None) == 0
    ensures RunLength(Space, Lunch, 11, None) == 1
    ensures RunLength(NotNewline, Lunch, 12, None) == 10
  {
    SpaceRuns();
    DigitRun();
    DescriptionRun();
  }

  lemma SpaceRuns()
    ensures RunLength(OneOf(['\U{20AC}']), Lunch, 8, Some(1)) == 0
    ensures RunLength(Space, Lunch, 8, None) == 1
    ensures RunLength(Space, Lunch, 11, None) == 1
  {
    assert Lunch[8] == ' ' && Lunch[9] == '1' && Lunch[11] == ' ' && Lunch[12] == 'p';
    assert !IsSpace('1') && !IsSpace('p');
    RunOf(Space, Lunch, 8, 1);
    RunOf(Space, Lunch, 11, 1);
  }

  lemma DigitRun()
    ensures RunLength(Digit, Lunch, 9, None) == 2
    ensures RunLength(OneOf(".,"), Lunch, 11, Some(1)) == 0
    ensures RunLength(Digit, Lunch, 11, None) == 0
  {
    assert Lunch[9] == '1' && Lunch[10] == '2' && Lunch[11] == ' ';
    RunOf(Digit, Lunch, 9, 2);
  }

  lemma DescriptionRun()
    ensures RunLength(NotNewline, Lunch, 12, None) == 10
  {
    assert Lunch[12..] == "per pranzo";
    assert forall k :: 12 <= k < 22 ==> Lunch[k] == Lunch[12..][k - 12];
    RunOf(NotNewline, Lunch, 12, 10);
  }

  /** From position 8 every item takes its longest run and the rest follows on the first try. */
  lemma LunchMatchAtEight()
    ensures MatchFrom(AmountFirst, Lunch, 8, map[]) == Some(LunchMarks)
  {
    AmountFirstItems();
    LunchRuns();
    var p := AmountFirst;
    var m0 := map[0 := 8];
    var m1 := m0[1 := 11];
    var m2 := m1[2 := 12];
    assert m2[3 := 22] == LunchMarks;
    MatchTail(p, m2);
    MatchMiddle(p, m0, m1, m2);
    MatchHead(p, m0);
  }

  lemma MatchTail(p: seq<Item>, m2: Marks)
    requires p == AmountFirst && m2 == map[0 := 8, 1 := 11, 2 := 12]
    requires RunLength(NotNewline, Lunch, 12, None) == 10
    ensures MatchFrom(p[9..], Lunch, 12, m2) == Some(LunchMarks)
  {
    AmountFirstItems();
    assert m2[3 := 22] == LunchMarks;
    assert p[11..] == [];
    assert MatchFrom(p[10..], Lunch, 22, m2) == Some(LunchMarks);
    assert p[9..][1..] == p[10..];
    assert TryFewer(p[9..], Lunch, 12, m2, 1, 10) == Some(LunchMarks);
  }

  lemma MatchMiddle(p: seq<Item>, m0: Marks, m1: Marks, m2: Marks)
    requires p == AmountFirst && m0 == map[0 := 8] && m1 == m0[1 := 11] && m2 == m1[2 := 12]
    requires MatchFrom(p[9..], Lunch, 12, m2) == Some(LunchMarks)
    requires RunLength(Space, Lunch, 11, None) == 1
    requires RunLength(Digit, Lunch, 11, None) == 0
    requires RunLength(OneOf(".,"), Lunch, 11, Some(1)) == 0
    ensures MatchFrom(p[4..], Lunch, 11, m0) == Some(LunchMarks)
  {
    AmountFirstItems();
    assert MatchFrom(p[8..], Lunch, 12, m1) == Some(LunchMarks);
    assert p[7..][1..] == p[8..];
    assert TryFewer(p[7..], Lunch, 11, m1, 1, 1) == Some(LunchMarks);
    assert MatchFrom(p[7..], Lunch, 11, m1) == Some(LunchMarks);
    assert MatchFrom(p[6..], Lunch, 11, m0) == Some(LunchMarks);
    assert p[5..][1..] == p[6..];
    assert TryFewer(p[5..], Lunch, 11, m0, 0, 0) == Some(LunchMarks);
    assert MatchFrom(p[5..], Lunch, 11, m0) == Some(LunchMarks);
    assert p[4..][1..] == p[5..];
    assert TryFewer(p[4..], Lunch, 11, m0, 0, 0) == Some(LunchMarks);
  }

  lemma MatchHead(p: seq<Item>, m0: Marks)
    requires p == AmountFirst && m0 == map[0 := 8]
    requires MatchFrom(p[4..], Lunch, 11, m0) == Some(LunchMarks)
    requires RunLength(OneOf(['\U{20AC}']), Lunch, 8, Some(1)) == 0
    requires RunLength(Space, Lunch, 8, None) == 1
    requires RunLength(Digit, Lunch, 9, None) == 2
    ensures MatchFrom(p, Lunch, 8, map[]) == Some(LunchMarks)
  {
    AmountFirstItems();
    assert p[3..][1..] == p[4..];
    assert TryFewer(p[3..], Lunch, 9, m0, 1, 2) == Some(LunchMarks);
    assert MatchFrom(p[3..], Lunch, 9, m0) == Some(LunchMarks);
    assert p[2..][1..] == p[3..];
    assert TryFewer(p[2..], Lunch, 8, m0, 0, 1) == Some(LunchMarks);
    assert MatchFrom(p[2..], Lunch, 8, m0) == Some(LunchMarks);
    assert p[1..][1..] == p[2..];
    assert TryFewer(p[1..], Lunch, 8, m0, 0, 0) == Some(LunchMarks);
    assert MatchFrom(p[1..], Lunch, 8, m0) == Some(LunchMarks);
    assert map[][0 := 8] == m0;
  }

  /** `re.search` with the first pattern finds the match at 8. */
  lemma LunchSearch()
    ensures Search(AmountFirst, Lunch) == Some(LunchMarks)
  {
    forall k | 0 <= k < 8 ensures MatchFrom(AmountFirst, Lunch, k, map[]).None? {
      LunchNoEarlierMatch(k);
    }
    SearchSkips(AmountFirst, Lunch, 0, 8);
    LunchMatchAtEight();
  }

  /** The message is already lower-case and stripped. */
  lemma LunchNormal()
    ensures Normalize(Lunch) == Lunch
  {
    assert Lower(Lunch) == Lunch;
    assert Lunch[0] == 'h' && Lunch[21] == 'o';
    StripTrimmed(Lunch);
  }

  /** The amount group ` 12` cleans to the numeral `12`, worth 12. */
  lemma TwelveCleans()
    ensures CleanAmount(" 12") == "12" && CleanAmount("12") == "12"
    ensures IsDecimal("12") && DecimalValue("12") == 12.0
  {
    SpacedTwelveCleans();
    TwelveStaysClean();
    TwelveValue();
  }

  lemma SpacedTwelveCleans()
    ensures CleanAmount(" 12") == "12"
  {
    NoEuroInSpacedTwelve();
    NoCommaInSpacedTwelve();
    SpacedTwelveStrips();
  }

  lemma NoEuroInSpacedTwelve()
    ensures RemoveChar(" 12", '\U{20AC}') == " 12"
  {
    var s := " 12";
    assert s[1..] == "12" && s[1..][1..] == "2" && s[1..][1..][1..] == [];
    assert RemoveChar(s[1..][1..], '\U{20AC}') == "2";
    assert RemoveChar(s[1..], '\U{20AC}') == "12";
  }

  lemma NoCommaInSpacedTwelve()
    ensures ReplaceChar(" 12", ',', '.') == " 12"
  {
    var r := ReplaceChar(" 12", ',', '.');
    assert r[0] == ' ' && r[1] == '1' && r[2] == '2';
  }

  lemma SpacedTwelveStrips()
    ensures Strip(" 12") == "12"
  {
    var s := " 12";
    assert s[0] == ' ' && s[1..] == "12";
    assert IsSpace(' ') && !IsSpace('1');
    assert LStrip("12") == "12";
    assert LStrip(s) == "12";
    assert !IsSpace('2');
    assert RStrip("12") == "12";
  }

  lemma TwelveStaysClean()
    ensures CleanAmount("12") == "12"
  {
    var s := "12";
    assert s[1..] == "2" && s[1..][1..] == [];
    assert RemoveChar(s, '\U{20AC}') == s;
    assert ReplaceChar(s, ',', '.') == s;
    StripTrimmed(s);
  }

  lemma TwelveValue()
    ensures IsDecimal("12") && DecimalValue("12") == 12.0
  {
    var s := "12";
    assert s[1..] == "2" && s[1..][1..] == [];
    assert LeadingDigits(s[1..][1..]) == 0;
    assert LeadingDigits(s[1..]) == 1;
    assert LeadingDigits(s) == 2;
    assert s[..2] == s && s[..1] == "1";
    assert DigitsValue(s[..1]) == 1;
    assert DigitsValue(s) == 12;
  }

  /** The two groups of the match: ` 12` and `per pranzo`. */
  lemma LunchGroups()
    ensures Group(Lunch, LunchMarks, 0) == " 12"
    ensures Group(Lunch, LunchMarks, 1) == "per pranzo"
  {
    assert Lunch[8..11] == " 12";
    assert Lunch[12..22] == "per pranzo";
  }

  /** The first pattern yields the record: the amount group cleans to a numeral, so it is the
      amount and the other group the description. */
  lemma LunchAttempt(kind: string, svc: Service)
    ensures Attempt(Lunch, Patterns[0], kind, svc) == Some(Parsed(12.0, "per pranzo", Categorize("per pranzo", kind, svc), kind))
  {
    var g0, g1 := Group(Lunch, LunchMarks, 0), Group(Lunch, LunchMarks, 1);
    assert g0 == " 12" && g1 == "per pranzo" && CleanAmount(g0) == "12" by {
      LunchGroups();
      TwelveCleans();
    }
    assert Attempt(Lunch, Patterns[0], kind, svc) == Conclude(CleanAmount(g0), g1, kind, svc) by {
      var pat := Patterns[0];
      assert pat.items == AmountFirst && pat.groups == 2;
      LunchSearch();
      TwelveCleans();
      AttemptAmountFirst(Lunch, pat, LunchMarks, kind, svc);
    }
    assert Conclude("12", "per pranzo", kind, svc) == Some(Parsed(12.0, "per pranzo", Categorize("per pranzo", kind, svc), kind)) by {
      TwelveCleans();
      DescriptionTrimmed();
    }
  }

  lemma DescriptionTrimmed()
    ensures Strip("per pranzo") == "per pranzo"
  {
    var d := "per pranzo";
    assert d[0] == 'p' && d[|d| - 1] == 'o';
    StripTrimmed(d);
  }

  /** A two-group pattern whose first group is a numeral once cleaned concludes with that numeral
      and the second group. */
  lemma AttemptAmountFirst(t: string, pat: Pattern, m: Marks, kind: string, svc: Service)
    requires Search(pat.items, t) == Some(m) && pat.groups == 2
    requires IsDecimal(CleanAmount(Group(t, m, 0)))
    ensures Attempt(t, pat, kind, svc) == Conclude(CleanAmount(Group(t, m, 0)), Group(t, m, 1), kind, svc)
  {
    var p1, p2 := Group(t, m, 0), Group(t, m, 1);
    PickFirst(p1, p2);
    AttemptPicked(t, pat, m, (CleanAmount(p1), p2), kind, svc);
  }

  lemma PickFirst(p1: string, p2: string)
    requires IsDecimal(CleanAmount(p1))
    ensures PickAmount(p1, p2) == Some((CleanAmount(p1), p2))
  {
  }

  lemma AttemptPicked(t: string, pat: Pattern, m: Marks, ad: (string, string), kind: string, svc: Service)
    requires Search(pat.items, t) == Some(m) && pat.groups == 2
    requires PickAmount(Group(t, m, 0), Group(t, m, 1)) == Some(ad)
    ensures Attempt(t, pat, kind, svc) == Conclude(ad.0, ad.1, kind, svc)
  {
  }

  /** `ho speso 12 per pranzo` parses with the first pattern: the amount 12 and the description
      `per pranzo`, categorised for the kind given. */
  lemma LunchParse(kind: string, svc: Service)
    ensures Parse(Lunch, kind, svc) == Some(Parsed(12.0, "per pranzo", Categorize("per pranzo", kind, svc), kind))
  {
    LunchNormal();
    LunchAttempt(kind, svc);
  }

  /** With no client, the message is a restaurant expense for kind `spesa`, and filed under `Altri`
      for the kind `spese` that expense mode passes. */
  lemma LunchRecords()
    ensures Parse(Lunch, ExpenseKind, NoClient) == Some(Parsed(12.0, "per pranzo", "Ristorazione", ExpenseKind))
    ensures Parse(Lunch, "spese", NoClient) == Some(Parsed(12.0, "per pranzo", "Altri", "spese"))
  {
    LunchParse(ExpenseKind, NoClient);
    LunchParse("spese", NoClient);
    CategoryExamples.LunchExample();
    CategoryExamples.LunchInExpenseMode();
  }
}
