/** Worked examples of the keyword rules on concrete descriptions. */
module CategoryExamples {
  import opened Text
  import opened Ledger
  import opened Categories


  // Evidence that each of the rules tried before the one that applies does not apply.

  lemma CinemaNotTransport()
    ensures !Mentions("cinema", ExpenseRules[0].keywords)
  {
    NotMentioned("cinema", ExpenseRules[0].keywords, [AbsentChar(0), AbsentChar(0), AbsentChar(0), AbsentChar(0), AbsentChar(0), AbsentChar(1)]);
  }

  lemma CinemaNotGroceries()
    ensures !Mentions("cinema", ExpenseRules[1].keywords)
  {
    NotMentioned("cinema", ExpenseRules[1].keywords, [AbsentChar(0), AbsentChar(0), AbsentChar(0), AbsentChar(0), AbsentChar(1), AbsentChar(0)]);
  }

  lemma CinemaNotRestaurant()
    ensures !Mentions("cinema", ExpenseRules[2].keywords)
  {
    NotMentioned("cinema", ExpenseRules[2].keywords, [AbsentChar(0), AbsentChar(0), AbsentChar(2), AbsentChar(0), AbsentChar(0), AbsentPair(0)]);
  }

  lemma CinemaNotHome()
    ensures !Mentions("cinema", ExpenseRules[3].keywords)
  {
    NotMentioned("cinema", ExpenseRules[3].keywords, [AbsentChar(0), AbsentChar(1), AbsentChar(0), AbsentChar(0), AbsentChar(2), AbsentChar(2)]);
  }

  lemma CinemaNotHealth()
    ensures !Mentions("cinema", ExpenseRules[4].keywords)
  {
    NotMentioned("cinema", ExpenseRules[4].keywords, [AbsentChar(0), AbsentChar(0), AbsentChar(2), AbsentChar(2)]);
  }

  lemma LunchNotTransport()
    ensures !Mentions("per pranzo", ExpenseRules[0].keywords)
  {
    NotMentioned("per pranzo", ExpenseRules[0].keywords, [AbsentChar(0), AbsentChar(0), AbsentChar(0), AbsentChar(0), AbsentChar(3), AbsentChar(1)]);
  }

  lemma LunchNotGroceries()
    ensures !Mentions("per pranzo", ExpenseRules[1].keywords)
  {
    NotMentioned("per pranzo", ExpenseRules[1].keywords, [AbsentChar(0), AbsentChar(0), AbsentPair(0), AbsentChar(0), AbsentChar(0), AbsentChar(0)]);
  }

  lemma LunchNotSalary()
    ensures !Mentions("per pranzo", IncomeRules[0].keywords)
  {
    NotMentioned("per pranzo", IncomeRules[0].keywords, [AbsentChar(0), AbsentChar(0), AbsentChar(0), AbsentChar(2), AbsentChar(0)]);
  }

  lemma LunchNotFreelance()
    ensures !Mentions("per pranzo", IncomeRules[1].keywords)
  {
    NotMentioned("per pranzo", IncomeRules[1].keywords, [AbsentChar(0), AbsentChar(0), AbsentChar(3), AbsentChar(0)]);
  }

  lemma LunchNotFamily()
    ensures !Mentions("per pranzo", IncomeRules[2].keywords)
  {
    NotMentioned("per pranzo", IncomeRules[2].keywords, [AbsentChar(2), AbsentPair(0), AbsentPair(0), AbsentChar(0), AbsentChar(3), AbsentChar(0)]);
  }

  lemma LunchNotInvestment()
    ensures !Mentions("per pranzo", IncomeRules[3].keywords)
  {
    NotMentioned("per pranzo", IncomeRules[3].keywords, [AbsentChar(0), AbsentChar(0), AbsentChar(0), AbsentChar(0)]);
  }

  lemma LunchNotSale()
    ensures !Mentions("per pranzo", IncomeRules[4].keywords)
  {
    NotMentioned("per pranzo", IncomeRules[4].keywords, [AbsentChar(0), AbsentChar(0), AbsentChar(0), AbsentChar(0)]);
  }

  /** With no client, the description `cinema` is a leisure expense. */
  lemma CinemaExample()
    ensures Categorize("cinema", ExpenseKind, NoClient) == "Svago"
  {
    var d := "cinema";
    assert Lower(d) == d;
    CinemaNotTransport();
    CinemaNotGroceries();
    CinemaNotRestaurant();
    CinemaNotHome();
    CinemaNotHealth();
    assert Mentions(d, ExpenseRules[5].keywords) by {
      ContainsHere(d, "cinema", 0);
      assert ExpenseRules[5].keywords[0] == "cinema";
    }
    assert NoneApplies(d, ExpenseRules, 5);
    FirstMatchRule(d, ExpenseRules, "Varie");
  }


  /** With no client, a lunch is a restaurant expense for kind `spesa`. */
  lemma LunchExample()
    ensures Categorize("per pranzo", ExpenseKind, NoClient) == "Ristorazione"
  {
    var d := "per pranzo";
    assert Lower(d) == d;
    LunchNotTransport();
    LunchNotGroceries();
    assert Mentions(d, ExpenseRules[2].keywords) by {
      ContainsHere(d, "pranzo", 4);
      assert ExpenseRules[2].keywords[4] == "pranzo";
    }
    assert NoneApplies(d, ExpenseRules, 2);
    FirstMatchRule(d, ExpenseRules, "Varie");
  }

  /** The same lunch, in the kind `spese` that the text handler passes, is an `Altri` income. */
  lemma LunchInExpenseMode()
    ensures Categorize("per pranzo", "spese", NoClient) == "Altri"
  {
    var d := "per pranzo";
    assert Lower(d) == d;
    LunchNotSalary();
    LunchNotFreelance();
    LunchNotFamily();
    LunchNotInvestment();
    LunchNotSale();
    assert NoneApplies(d, IncomeRules, |IncomeRules|);
    FirstMatchRule(d, IncomeRules, "Altri");
  }
}
