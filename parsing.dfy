/** `parse_transazione`: the three patterns tried in order on a chat message, the choice of which
    captured group is the amount, and the record a successful parse produces. */
module Parsing {
  import opened Common
  import opened Text
  import opened Regex
  import opened Categories

  /** `€?\s*\d+[.,]?\d*`, the amount as the patterns write it. */
  const AmountItems: seq<Item> := [
    Rep(OneOf(['\U{20AC}']), 0, Some(1), true),
    Rep(Space, 0, None, true),
    Rep(Digit, 1, None, true),
    Rep(OneOf(".,"), 0, Some(1), true),
    Rep(Digit, 0, None, true)
  ]

  /** `(€?\s*\d+[.,]?\d*)\s+(.+)`: an amount, then the description. */
  const AmountFirst: seq<Item> :=
    [Mark(0)] + AmountItems + [Mark(1), Rep(Space, 1, None, true), Mark(2), Rep(NotNewline, 1, None, true), Mark(3)]

  /** `(.+?)\s+(€?\s*\d+[.,]?\d*)$`: the description, then an amount that ends the message. */
  const AmountLast: seq<Item> :=
    [Mark(0), Rep(NotNewline, 1, None, false), Mark(1), Rep(Space, 1, None, true), Mark(2)] + AmountItems + [Mark(3), End]

  /** `ho\s+(speso|guadagnato|ricevuto)\s+(€?\s*\d+[.,]?\d*)\s+(per|da|di)\s+(.+)`. */
  const Sentence: seq<Item> :=
    [Lit("ho"), Rep(Space, 1, None, true), Mark(0), Alt(["speso", "guadagnato", "ricevuto"]), Mark(1),
     Rep(Space, 1, None, true), Mark(2)] + AmountItems +
    [Mark(3), Rep(Space, 1, None, true), Mark(4), Alt(["per", "da", "di"]), Mark(5),
     Rep(Space, 1, None, true), Mark(6), Rep(NotNewline, 1, None, true), Mark(7)]

  /** A pattern and the number of groups it captures. */
  datatype Pattern = Pattern(items: seq<Item>, groups: nat)

  const Patterns: seq<Pattern> := [Pattern(AmountFirst, 2), Pattern(AmountLast, 2), Pattern(Sentence, 4)]

  /** The record of a successful parse. */
  datatype Parsed = Parsed(amount: real, description: string, category: string, kind: string)

  /** The loop over the two groups of a two-group pattern: the first group whose cleaned text is a
      decimal numeral gives the amount text, and the other group the description. (When the first
      group is the amount, the source picks `p1 if p1 == p2 else p2`, which is `p2` either way.) */
  function PickAmount(p1: string, p2: string): (r: Option<(string, string)>)
    ensures r.Some? <==> IsDecimal(CleanAmount(p1)) || IsDecimal(CleanAmount(p2))
    ensures IsDecimal(CleanAmount(p1)) ==> r == Some((CleanAmount(p1), p2))
    ensures !IsDecimal(CleanAmount(p1)) && IsDecimal(CleanAmount(p2)) ==> r == Some((CleanAmount(p2), p1))
  {
    if IsDecimal(CleanAmount(p1)) then Some((CleanAmount(p1), if p1 == p2 then p1 else p2))
    else if IsDecimal(CleanAmount(p2)) then Some((CleanAmount(p2), p1))
    else None
  }

  /** The `try` block: `float` of the cleaned amount text (a `ValueError` when it is not a numeral,
      and the next pattern is tried), the stripped description and its category. */
  function Conclude(amountText: string, descText: string, kind: string, svc: Service): (r: Option<Parsed>)
    ensures r.Some? <==> IsDecimal(CleanAmount(amountText))
    ensures r.Some? ==>
      r.value.amount == DecimalValue(CleanAmount(amountText)) && r.value.kind == kind &&
      r.value.description == Strip(descText) && r.value.category == Categorize(Strip(descText), kind, svc)
  {
    var c := CleanAmount(amountText);
    if IsDecimal(c) then
      var d := Strip(descText);
      Some(Parsed(DecimalValue(c), d, Categorize(d, kind, svc), kind))
    else None
  }

  /** One pass of the pattern loop: the first match of the pattern in the message, then either the
      amount and description groups of the four-group pattern or the choice between two groups. */
  function Attempt(t: string, pat: Pattern, kind: string, svc: Service): Option<Parsed> {
    match Search(pat.items, t)
    case None => None
    case Some(m) =>
      if pat.groups == 4 then Conclude(Group(t, m, 1), Group(t, m, 3), kind, svc)
      else
        match PickAmount(Group(t, m, 0), Group(t, m, 1))
        case None => None
        case Some(ad) => Conclude(ad.0, ad.1, kind, svc)
  }

  /** The patterns tried in order; the first that yields a record decides. */
  function ParseWith(t: string, pats: seq<Pattern>, kind: string, svc: Service): Option<Parsed>
    decreases |pats|
  {
    if pats == [] then None
    else
      var r := Attempt(t, pats[0], kind, svc);
      if r.Some? then r else ParseWith(t, pats[1..], kind, svc)
  }

  /** The message as the patterns see it: lower-cased, then stripped. */
  function Normalize(text: string): string {
    Strip(Lower(text))
  }

  /** `parse_transazione(testo, tipo)`; `None` is `{'successo': False}`. */
  function Parse(text: string, kind: string, svc: Service): Option<Parsed> {
    ParseWith(Normalize(text), Patterns, kind, svc)
  }

  /** The loop of `parse_transazione`: the patterns in order, with an early return. */
  method ParseTransaction(text: string, kind: string, svc: Service) returns (r: Option<Parsed>)
    ensures r == Parse(text, kind, svc)
  {
    var t := Normalize(text);
    for i := 0 to |Patterns|
      invariant ParseWith(t, Patterns, kind, svc) == ParseWith(t, Patterns[i..], kind, svc)
    {
      assert Patterns[i..][1..] == Patterns[i + 1..];
      r := TryPattern(t, Patterns[i], kind, svc);
      if r.Some? {
        return;
      }
    }
    return None;
  }

  /** The body of that loop for one pattern, with the `for`/`else` over the two groups of a
      two-group pattern; `None` stands for the `continue` to the next pattern. */
  method TryPattern(t: string, pat: Pattern, kind: string, svc: Service) returns (r: Option<Parsed>)
    ensures r == Attempt(t, pat, kind, svc)
  {
    var found := Search(pat.items, t);
    if found.None? {
      return None;
    }
    var m := found.value;
    var amountText: string, descText: string := "", "";
    if pat.groups == 4 {
      amountText, descText := Group(t, m, 1), Group(t, m, 3);
      assert Attempt(t, pat, kind, svc) == Conclude(amountText, descText, kind, svc);
    } else {
      var p1, p2 := Group(t, m, 0), Group(t, m, 1);
      var parts := [p1, p2];
      var j := 0;
      var picked := false;
      ghost var pick := PickAmount(p1, p2);
      while j < |parts| && !picked
        invariant 0 <= j <= |parts|
        invariant !picked ==> (j >= 1 ==> !IsDecimal(CleanAmount(p1))) && (j >= 2 ==> !IsDecimal(CleanAmount(p2)))
        invariant picked ==> pick == Some((amountText, descText))
      {
        var clean := CleanAmount(parts[j]);
        if IsDecimal(clean) {
          amountText := clean;
          descText := if parts[j] == p2 then p1 else p2;
          picked := true;
          if j == 0 {
            assert descText == p2 && amountText == CleanAmount(p1);
          } else {
            assert descText == p1 && amountText == CleanAmount(p2);
          }
        }
        j := j + 1;
      }
      if !picked {
        assert pick.None?;
        return None;
      }
      assert Attempt(t, pat, kind, svc) == Conclude(pick.value.0, pick.value.1, kind, svc);
    }
    var c := CleanAmount(amountText);
    if !IsDecimal(c) {
      return None;
    }
    var d := Strip(descText);
    var category := Categorize(d, kind, svc);
    r := Some(Parsed(DecimalValue(c), d, category, kind));
    assert r == Conclude(amountText, descText, kind, svc);
  }

  /** A decimal numeral has nothing for the cleaning to remove. */
  lemma CleanDecimal(s: string)
    requires IsDecimal(s)
    ensures CleanAmount(s) == s
  {
    DecimalChars(s);
    RemoveAbsent(s, '\U{20AC}');
    ReplaceAbsent(s, ',', '.');
    StripTrimmed(s);
  }

  /** The amount text of a two-group pattern is already a clean numeral, so the `float` that follows
      never raises: a two-group pattern that found an amount always yields a record. */
  lemma PickedAmountConverts(p1: string, p2: string, kind: string, svc: Service)
    requires PickAmount(p1, p2).Some?
    ensures Conclude(PickAmount(p1, p2).value.0, PickAmount(p1, p2).value.1, kind, svc).Some?
  {
    CleanDecimal(PickAmount(p1, p2).value.0);
  }

  /** A parsed record carries a non-negative amount that some decimal numeral denotes, a stripped
      description, the kind it was asked for, and the category the categoriser gives that
      description. */
  lemma {:induction false} ParseWithShape(t: string, pats: seq<Pattern>, kind: string, svc: Service)
    requires ParseWith(t, pats, kind, svc).Some?
    ensures var p := ParseWith(t, pats, kind, svc).value;
      p.amount >= 0.0 && (exists c :: IsDecimal(c) && p.amount == DecimalValue(c)) &&
      Strip(p.description) == p.description && p.kind == kind &&
      p.category == Categorize(p.description, kind, svc)
    decreases |pats|
  {
    if Attempt(t, pats[0], kind, svc).None? {
      ParseWithShape(t, pats[1..], kind, svc);
    } else {
      var p := Attempt(t, pats[0], kind, svc).value;
      var m := Search(pats[0].items, t).value;
      if pats[0].groups == 4 {
        ConcludeShape(Group(t, m, 1), Group(t, m, 3), kind, svc);
      } else {
        var ad := PickAmount(Group(t, m, 0), Group(t, m, 1)).value;
        ConcludeShape(ad.0, ad.1, kind, svc);
      }
    }
  }

  lemma ConcludeShape(amountText: string, descText: string, kind: string, svc: Service)
    requires IsDecimal(CleanAmount(amountText))
    ensures var p := Conclude(amountText, descText, kind, svc).value;
      p.amount >= 0.0 && (exists c :: IsDecimal(c) && p.amount == DecimalValue(c)) &&
      Strip(p.description) == p.description && p.kind == kind &&
      p.category == Categorize(p.description, kind, svc)
  {
    StripIdempotent(descText);
    var c := CleanAmount(amountText);
    assert IsDecimal(c) && DecimalValue(c) == Conclude(amountText, descText, kind, svc).value.amount;
  }

  /** The result of a parse with the properties above. */
  lemma ParseShape(text: string, kind: string, svc: Service)
    requires Parse(text, kind, svc).Some?
    ensures var p := Parse(text, kind, svc).value;
      p.amount >= 0.0 && (exists c :: IsDecimal(c) && p.amount == DecimalValue(c)) &&
      Strip(p.description) == p.description && p.kind == kind &&
      p.category == Categorize(p.description, kind, svc)
  {
    ParseWithShape(Normalize(text), Patterns, kind, svc);
  }

  /** No record comes out exactly when no pattern yields one. */
  lemma {:induction false} ParseWithNone(t: string, pats: seq<Pattern>, kind: string, svc: Service)
    ensures ParseWith(t, pats, kind, svc).None? <==>
      forall k :: 0 <= k < |pats| ==> Attempt(t, pats[k], kind, svc).None?
    decreases |pats|
  {
    if pats != [] {
      ParseWithNone(t, pats[1..], kind, svc);
      assert forall k :: 1 <= k < |pats| ==> pats[k] == pats[1..][k - 1];
    }
  }

  /** Patterns that yield no record are skipped: the parse is that of the patterns after them. */
  lemma {:induction false} ParseWithSkip(t: string, pats: seq<Pattern>, kind: string, svc: Service, k: nat)
    requires k <= |pats|
    ensures (forall l :: 0 <= l < k ==> Attempt(t, pats[l], kind, svc).None?) ==>
      ParseWith(t, pats, kind, svc) == ParseWith(t, pats[k..], kind, svc)
    decreases k
  {
    if k > 0 && forall l :: 0 <= l < k ==> Attempt(t, pats[l], kind, svc).None? {
      assert Attempt(t, pats[0], kind, svc).None?;
      forall l | 0 <= l < k - 1 ensures Attempt(t, pats[1..][l], kind, svc).None? {
        assert pats[1..][l] == pats[l + 1];
      }
      ParseWithSkip(t, pats[1..], kind, svc, k - 1);
      assert pats[1..][k - 1..] == pats[k..];
    }
  }

  /** The same for the three patterns of the parser, on the normalised message. */
  lemma ParseOrder(text: string, kind: string, svc: Service)
    ensures Parse(text, kind, svc).None? <==>
      forall k :: 0 <= k < |Patterns| ==> Attempt(Normalize(text), Patterns[k], kind, svc).None?
    ensures forall k ::
      (0 <= k < |Patterns| && Attempt(Normalize(text), Patterns[k], kind, svc).Some? &&
       forall l :: 0 <= l < k ==> Attempt(Normalize(text), Patterns[l], kind, svc).None?) ==>
      Parse(text, kind, svc) == Attempt(Normalize(text), Patterns[k], kind, svc)
  {
    ParseWithNone(Normalize(text), Patterns, kind, svc);
    forall k | 0 <= k < |Patterns| && Attempt(Normalize(text), Patterns[k], kind, svc).Some? &&
      (forall l :: 0 <= l < k ==> Attempt(Normalize(text), Patterns[l], kind, svc).None?)
      ensures Parse(text, kind, svc) == Attempt(Normalize(text), Patterns[k], kind, svc)
    {
      ParseWithSkip(Normalize(text), Patterns, kind, svc, k);
      assert Patterns[k..][0] == Patterns[k];
    }
  }
}
