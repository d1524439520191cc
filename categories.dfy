/** Choosing a category for a parsed description: the keyword rules used when no language model is
    available, and the validation of a language model's answer. */
module Categories {
  import opened Common
  import opened Text
  import opened Ledger

  /** The categories an expense may be given; the last one is the catch-all. */
  const ExpenseCategories: seq<string> :=
    ["Trasporti", "Alimentari", "Ristorazione", "Casa", "Salute", "Svago", "Abbigliamento", "Varie"]

  /** The categories an income may be given; the last one is the catch-all. */
  const IncomeCategories: seq<string> :=
    ["Stipendio", "Freelance", "Famiglia", "Investimenti", "Vendite", "Altri"]

  /** A category and the keywords whose presence in a description selects it. */
  datatype Rule = Rule(category: string, keywords: seq<string>)

  /** The expense rules, in the order they are tried. */
  const ExpenseRules: seq<Rule> := [
    Rule("Trasporti", ["benzina", "treno", "bus", "taxi", "parcheggio", "auto"]),
    Rule("Alimentari", ["supermercato", "spesa", "pane", "latte", "coop", "lidl"]),
    Rule("Ristorazione", ["ristorante", "bar", "caffè", "pizza", "pranzo", "cena"]),
    Rule("Casa", ["bolletta", "affitto", "luce", "gas", "internet", "casa"]),
    Rule("Salute", ["farmacia", "dottore", "medico", "medicina"]),
    Rule("Svago", ["cinema", "libro", "palestra", "sport", "gioco"]),
    Rule("Abbigliamento", ["vestiti", "scarpe", "maglietta", "pantaloni"])
  ]

  /** The income rules, in the order they are tried. */
  const IncomeRules: seq<Rule> := [
    Rule("Stipendio", ["stipendio", "salario", "busta", "paga", "lavoro"]),
    Rule("Freelance", ["consulenza", "freelance", "progetto", "cliente"]),
    Rule("Famiglia", ["paghetta", "nonna", "nonno", "mamma", "papà", "famiglia"]),
    Rule("Investimenti", ["dividendo", "interesse", "investimento", "borsa"]),
    Rule("Vendite", ["vendita", "vendo", "usato", "marketplace"])
  ]

  /** `any(kw in desc for kw in keywords)`. */
  predicate Mentions(desc: string, keywords: seq<string>) {
    exists k :: 0 <= k < |keywords| && Contains(desc, keywords[k])
  }

  /** The category of the first rule whose keywords the description mentions, else `default`. */
  function FirstMatch(desc: string, rules: seq<Rule>, default: string): (r: string)
    ensures r == default || exists k :: 0 <= k < |rules| && r == rules[k].category
    decreases |rules|
  {
    if rules == [] then default
    else if Mentions(desc, rules[0].keywords) then rules[0].category
    else FirstMatch(desc, rules[1..], default)
  }

  /** No rule applies, in their order up to `n`. */
  predicate NoneApplies(desc: string, rules: seq<Rule>, n: int) {
    forall j :: 0 <= j < n && j < |rules| ==> !Mentions(desc, rules[j].keywords)
  }

  /** The first-match rule: the default when no rule applies, and otherwise the category of the
      first rule that does (either one or the other is the case). */
  lemma {:induction false} FirstMatchRule(desc: string, rules: seq<Rule>, default: string)
    ensures NoneApplies(desc, rules, |rules|) ==> FirstMatch(desc, rules, default) == default
    ensures forall k :: 0 <= k < |rules| && Mentions(desc, rules[k].keywords) && NoneApplies(desc, rules, k) ==>
      FirstMatch(desc, rules, default) == rules[k].category
    decreases |rules|
  {
    if rules != [] {
      var tail := rules[1..];
      FirstMatchRule(desc, tail, default);
      if !Mentions(desc, rules[0].keywords) {
        if NoneApplies(desc, rules, |rules|) {
          assert NoneApplies(desc, tail, |tail|) by {
            forall j | 0 <= j < |tail| ensures !Mentions(desc, tail[j].keywords) {
              assert tail[j] == rules[j + 1];
            }
          }
        }
        forall k | 0 <= k < |rules| && Mentions(desc, rules[k].keywords) && NoneApplies(desc, rules, k)
          ensures FirstMatch(desc, rules, default) == rules[k].category
        {
          assert k > 0 && tail[k - 1] == rules[k];
          assert NoneApplies(desc, tail, k - 1) by {
            forall j | 0 <= j < k - 1 ensures !Mentions(desc, tail[j].keywords) {
              assert tail[j] == rules[j + 1];
            }
          }
        }
      }
    }
  }

  /** Every rule selects one of the categories of its kind. */
  lemma RulesListed()
    ensures forall k :: 0 <= k < |ExpenseRules| ==> ExpenseRules[k].category in ExpenseCategories
    ensures forall k :: 0 <= k < |IncomeRules| ==> IncomeRules[k].category in IncomeCategories
  {
  }

  /** No category is both an expense and an income category. */
  lemma CategoriesDisjoint(c: string)
    ensures c in IncomeCategories ==> c !in ExpenseCategories
  {
  }

  /** `_fallback_categorize`: the expense rules for kind `spesa`, the income rules for every other
      kind, on the lower-cased description. */
  function FallbackCategorize(desc: string, kind: string): (r: string)
    ensures kind == ExpenseKind ==> r in ExpenseCategories
    ensures kind != ExpenseKind ==> r in IncomeCategories
  {
    RulesListed();
    if kind == ExpenseKind then FirstMatch(Lower(desc), ExpenseRules, "Varie")
    else FirstMatch(Lower(desc), IncomeRules, "Altri")
  }

  /** The categories a language model's answer is checked against, by kind; only the two kinds
      `spesa` and `ricavo` have an entry. */
  function ValidCategories(kind: string): (r: Option<seq<string>>)
    ensures r.Some? <==> kind == ExpenseKind || kind == IncomeKind
  {
    if kind == ExpenseKind then Some(ExpenseCategories)
    else if kind == IncomeKind then Some(IncomeCategories)
    else None
  }

  /** What the chat-completion request gave back: the text of the first choice, or a failure. */
  datatype Reply = Answer(content: string) | Failed

  /** The language-model client: absent (no API key), or present with the reply it will give. */
  datatype Service = NoClient | Client(reply: Reply)

  /** `_categorize_with_openai`: the rules when there is no client or the request fails; otherwise
      the stripped answer when it is a valid category of the kind, else the kind's catch-all; a kind
      without valid categories ends in the lookup error, which falls back to the rules. */
  function Categorize(desc: string, kind: string, svc: Service): (r: string)
    ensures kind == ExpenseKind ==> r in ExpenseCategories
    ensures kind != ExpenseKind ==> r in IncomeCategories
  {
    if svc.NoClient? || svc.reply.Failed? then FallbackCategorize(desc, kind)
    else
      match ValidCategories(kind)
      case None => FallbackCategorize(desc, kind)
      case Some(valid) =>
        var answer := Strip(svc.reply.content);
        if answer in valid then answer else if kind == ExpenseKind then "Varie" else "Altri"
  }

  /** An answer is taken as it stands exactly when it is one of the kind's valid categories. */
  lemma AnswerAccepted(desc: string, kind: string, content: string)
    requires kind == ExpenseKind || kind == IncomeKind
    ensures Categorize(desc, kind, Client(Answer(content))) == Strip(content) <==>
      Strip(content) in ValidCategories(kind).value
  {
  }

  /** The kinds the text handler passes, `spese` and `ricavi`, are neither `spesa` nor `ricavo`:
      whatever the client answers, the rules decide, and they are the income rules. */
  lemma ModeKindsUseIncomeRules(desc: string, kind: string, svc: Service)
    requires kind == "spese" || kind == "ricavi"
    ensures Categorize(desc, kind, svc) == FirstMatch(Lower(desc), IncomeRules, "Altri")
    ensures Categorize(desc, kind, svc) in IncomeCategories
  {
  }

  /** Evidence, one item per keyword, that a description holds none of the keywords. */
  predicate AbsentAll(desc: string, keywords: seq<string>, evidence: seq<Absence>) {
    |evidence| == |keywords| && forall i :: 0 <= i < |keywords| ==> AbsentBy(keywords[i], desc, evidence[i])
  }

  /** A description with such evidence mentions none of the keywords. */
  lemma NotMentioned(desc: string, keywords: seq<string>, evidence: seq<Absence>)
    requires AbsentAll(desc, keywords, evidence)
    ensures !Mentions(desc, keywords)
  {
    forall k | 0 <= k < |keywords| ensures !Contains(desc, keywords[k]) {
      Absent(keywords[k], desc, evidence[k]);
    }
  }
}
