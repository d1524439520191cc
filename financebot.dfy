/** `FinanceBotAI` and its message handlers: the per-user recording mode, the handler that turns a
    free-text message into a ledger row, and the monthly balance. */
module FinanceBot {
  import opened Common
  import opened Calendar
  import opened Text
  import opened Ledger
  import opened Categories
  import opened Parsing
  import opened Manager

  /** The two recording modes a user can switch on; `None` in the mode map is the normal mode. */
  const ExpenseMode: string := "spese"
  const IncomeMode: string := "ricavi"

  /** The kind a row recorded in `mode` is saved with: `spesa` in expense mode, `ricavo` otherwise. */
  function RecordKind(mode: string): (r: string)
    ensures r == ExpenseKind <==> mode == ExpenseMode
    ensures r != ExpenseKind ==> r == IncomeKind
  {
    if mode == ExpenseMode then ExpenseKind else IncomeKind
  }

  /** `first_name or "User"`. */
  function UserName(firstName: Option<string>): (r: string)
    ensures r != []
    ensures firstName.Some? && firstName.value != [] ==> r == firstName.value
  {
    if firstName.Some? && firstName.value != [] then firstName.value else "User"
  }

  /** The note the handler attaches to every row it saves. */
  function BotNote(firstName: Option<string>): string {
    "Bot - " + UserName(firstName)
  }

  /** The row `gestisci_testo` saves for a message in `mode`: the message is parsed with the mode
      itself as the kind, and the row is dated today and carries the mode's record kind. */
  function BotRecord(mode: string, text: string, svc: Service, firstName: Option<string>, today: Date): (r: Option<Transaction>)
    ensures r.Some? <==> Parse(text, mode, svc).Some?
  {
    match Parse(text, mode, svc)
    case None => None
    case Some(p) => Some(Transaction(today, p.description, p.category, p.amount, RecordKind(mode), BotNote(firstName)))
  }

  /** The row the text handler evidently means to save: the message is parsed with the record kind
      of the mode, so that expense mode uses the expense rules and vocabulary. */
  function IntendedBotRecord(mode: string, text: string, svc: Service, firstName: Option<string>, today: Date): (r: Option<Transaction>)
    ensures r.Some? <==> Parse(text, RecordKind(mode), svc).Some?
  {
    match Parse(text, RecordKind(mode), svc)
    case None => None
    case Some(p) => Some(Transaction(today, p.description, p.category, p.amount, RecordKind(mode), BotNote(firstName)))
  }

  /** The example messages offered when a message is not recognised. */
  function ExamplesFor(mode: string): (r: seq<string>)
    ensures |r| == 3
  {
    if mode == IncomeMode then ["1500 stipendio", "\U{20AC}200 freelance", "50 vendita"]
    else ["15.50 benzina", "\U{20AC}25 supermercato", "12 pranzo"]
  }

  /** What the text handler answers (the wording and the emoji are not modelled). */
  datatype TextReply = ModeHint | Saved(record: Transaction) | SaveFailed | NotRecognised(examples: seq<string>)

  /** Which way the month went: income above, below or equal to expenses. */
  datatype Trend = Up | Down | Even

  /** What `/bilancio` answers. */
  datatype BalanceReply =
    | NoData
    | Balance(income: real, expenses: real, net: real, trend: Trend, count: nat, dailyExpenses: real, savedPercent: ExtReal)
    | BalanceError

  /** The balance of a ledger for the month number `month`, in any year: income less expenses, the
      number of rows of the month, the expenses spread over 30 days and the saved share of income
      (undefined or infinite when there is no income). */
  function MonthBalance(rows: seq<Transaction>, month: int): (r: BalanceReply)
    ensures rows == [] <==> r.NoData?
    ensures !r.BalanceError?
    ensures r.Balance? ==> r.net == r.income - r.expenses && r.dailyExpenses * 30.0 == r.expenses
    ensures r.Balance? ==> (r.trend == Up <==> r.net > 0.0) && (r.trend == Down <==> r.net < 0.0)
  {
    if rows == [] then NoData
    else
      var current := MonthNumberRows(rows, month);
      var expenses := KindSum(current, ExpenseKind);
      var income := KindSum(current, IncomeKind);
      var net := income - expenses;
      Balance(income, expenses, net, if net > 0.0 then Up else if net < 0.0 then Down else Even,
              |current|, expenses / 30.0, ScalePos(Div(net, income), 100.0))
  }

  class FinanceBotAI {
    /** `user_modes`: user id to `spese`, `ricavi` or `None`. */
    var userModes: map<int, Option<string>>
    const manager: SpeseManager
    /** The language-model client, or its absence. */
    const service: Service

    constructor (m: SpeseManager, svc: Service)
      ensures userModes == map[] && manager == m && service == svc
    {
      userModes := map[];
      manager := m;
      service := svc;
    }

    /** `user_modes.get(user_id, None)`. */
    function ModeOf(user: int): (r: Option<string>)
      reads this
      ensures user !in userModes ==> r.None?
      ensures user in userModes ==> r == userModes[user]
    {
      if user in userModes then userModes[user] else None
    }

    /** `/segnaspese`: the caller records expenses from now on. */
    method SetExpenseMode(user: int)
      modifies this
      ensures userModes == old(userModes)[user := Some(ExpenseMode)]
    {
      userModes := userModes[user := Some(ExpenseMode)];
    }

    /** `/segnaricavi`: the caller records income from now on. */
    method SetIncomeMode(user: int)
      modifies this
      ensures userModes == old(userModes)[user := Some(IncomeMode)]
    {
      userModes := userModes[user := Some(IncomeMode)];
    }

    /** `/modalinormale`: the caller's messages are no longer interpreted. */
    method SetNormalMode(user: int)
      modifies this
      ensures userModes == old(userModes)[user := None]
    {
      userModes := userModes[user := None];
    }

    /** `gestisci_testo`: in normal mode a hint and nothing else; otherwise the message is parsed
        with the mode as the kind, and a recognised record is appended to the ledger unless the
        store fails. */
    method HandleText(user: int, firstName: Option<string>, text: string, today: Date, storeOk: bool)
      returns (reply: TextReply)
      modifies manager
      ensures manager.config == old(manager.config)
      ensures ModeOf(user).None? ==> reply == ModeHint && manager.rows == old(manager.rows)
      ensures ModeOf(user).Some? ==>
        var record := BotRecord(ModeOf(user).value, text, service, firstName, today);
        (record.None? ==> reply == NotRecognised(ExamplesFor(ModeOf(user).value)) && manager.rows == old(manager.rows)) &&
        (record.Some? && storeOk ==> reply == Saved(record.value) && manager.rows == old(manager.rows) + [record.value]) &&
        (record.Some? && !storeOk ==> reply == SaveFailed && manager.rows == old(manager.rows))
    {
      var mode := if user in userModes then userModes[user] else None;
      if mode.None? {
        return ModeHint;
      }
      var kind := mode.value;
      var parsed := ParseTransaction(text, kind, service);
      if parsed.None? {
        return NotRecognised(ExamplesFor(kind));
      }
      var p := parsed.value;
      var ok := manager.AddTransaction(p.description, p.category, p.amount, RecordKind(kind), BotNote(firstName),
                                       None, today, storeOk);
      if ok {
        reply := Saved(Transaction(today, p.description, p.category, p.amount, RecordKind(kind), BotNote(firstName)));
      } else {
        reply := SaveFailed;
      }
    }

    /** `/bilancio` as written: it asks the manager for `get_dataframe()`, which `SpeseManager` does
        not define, so the call raises and the handler always answers with its error message. */
    function BalanceAsWritten(today: Date): (r: BalanceReply)
      ensures r == BalanceError
    {
      BalanceError
    }

    /** `/bilancio` on the manager's ledger, for the current month number. */
    function CurrentBalance(today: Date): (r: BalanceReply)
      reads this, manager
      ensures r == MonthBalance(manager.rows, today.month)
    {
      MonthBalance(manager.rows, today.month)
    }
  }

  /** Switching one user's mode leaves every other user's mode as it was. */
  lemma ModeSwitchIsLocal(modes: map<int, Option<string>>, user: int, mode: Option<string>, other: int)
    requires other != user
    ensures other in modes[user := mode] <==> other in modes
    ensures other in modes ==> modes[user := mode][other] == modes[other]
  {
  }

  /** A saved row carries kind `spesa` exactly in expense mode, and `ricavo` otherwise. */
  lemma RecordKindOfModes()
    ensures RecordKind(ExpenseMode) == ExpenseKind
    ensures RecordKind(IncomeMode) == IncomeKind
  {
  }

  /** Whatever the mode, the row gets one of the six income categories: the modes are passed to the
      parser as the kind, and neither `spese` nor `ricavi` is `spesa`. An expense recorded through
      the bot is thus never filed under an expense category. */
  lemma BotRecordCategory(mode: string, text: string, svc: Service, firstName: Option<string>, today: Date)
    requires mode == ExpenseMode || mode == IncomeMode
    requires BotRecord(mode, text, svc, firstName, today).Some?
    ensures var t := BotRecord(mode, text, svc, firstName, today).value;
      t.category in IncomeCategories && t.category !in ExpenseCategories &&
      t.category == FirstMatch(Lower(t.description), IncomeRules, "Altri") &&
      t.kind == RecordKind(mode) && t.date == today && t.note == BotNote(firstName) &&
      t.amount >= 0.0 && Strip(t.description) == t.description
  {
    ParseShape(text, mode, svc);
    var p := Parse(text, mode, svc).value;
    ModeKindsUseIncomeRules(p.description, mode, svc);
    CategoriesDisjoint(p.category);
  }

  /** With the record kind passed to the parser, a row saved in expense mode gets an expense
      category and any other mode an income category, each from the rules or the accepted answer
      of its own kind. */
  lemma IntendedRecordCategory(mode: string, text: string, svc: Service, firstName: Option<string>, today: Date)
    requires IntendedBotRecord(mode, text, svc, firstName, today).Some?
    ensures var t := IntendedBotRecord(mode, text, svc, firstName, today).value;
      (mode == ExpenseMode <==> t.category in ExpenseCategories) &&
      (mode != ExpenseMode <==> t.category in IncomeCategories) &&
      t.category == Categorize(t.description, RecordKind(mode), svc) &&
      t.kind == RecordKind(mode) && t.date == today && t.note == BotNote(firstName) &&
      t.amount >= 0.0 && Strip(t.description) == t.description
  {
    ParseShape(text, RecordKind(mode), svc);
    var p := Parse(text, RecordKind(mode), svc).value;
    CategoriesDisjoint(p.category);
  }

  /** The balance looks at the month number only: a row of the same month of another year counts
      exactly like one of this year. */
  lemma BalanceIgnoresYear(rows: seq<Transaction>, t: Transaction, year: int)
    requires rows != []
    ensures var moved := t.(date := t.date.(year := year));
      MonthBalance(rows + [t], t.date.month) == MonthBalance(rows + [moved], t.date.month)
  {
    var moved := t.(date := t.date.(year := year));
    assert (rows + [t])[..|rows|] == rows && (rows + [moved])[..|rows|] == rows;
  }

  /** A row joins the balance of its month: its amount adds to the expenses or the income by its
      kind, and rows of any other kind only add to the count. */
  lemma BalanceAppend(rows: seq<Transaction>, t: Transaction)
    requires rows != []
    ensures var before := MonthBalance(rows, t.date.month);
      var after := MonthBalance(rows + [t], t.date.month);
      after.Balance? && before.Balance? &&
      after.expenses == before.expenses + (if t.kind == ExpenseKind then t.amount else 0.0) &&
      after.income == before.income + (if t.kind == IncomeKind then t.amount else 0.0) &&
      after.count == before.count + 1
  {
    assert (rows + [t])[..|rows|] == rows;
  }

  /** A ledger with no income row has no income in any month, and the saved share is then not a
      number (nan or an infinity) rather than an error. */
  lemma NoIncomeShare(rows: seq<Transaction>, month: int)
    requires rows != []
    requires forall k :: 0 <= k < |rows| ==> rows[k].kind != IncomeKind
    ensures MonthBalance(rows, month).income == 0.0
    ensures !MonthBalance(rows, month).savedPercent.Fin?
  {
    NoKind(MonthNumberRows(rows, month), IncomeKind);
  }

  /** The sum over a kind no row has is zero. */
  lemma {:induction false} NoKind(rows: seq<Transaction>, kind: string)
    requires forall t :: t in rows ==> t.kind != kind
    ensures KindSum(rows, kind) == 0.0
    decreases |rows|
  {
    if rows != [] {
      var init := rows[..|rows| - 1];
      assert forall t :: t in init ==> t in rows;
      NoKind(init, kind);
      assert rows[|rows| - 1] in rows;
    }
  }
}
