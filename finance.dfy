/** The records the session keeps, the requests the application sends to the
    language model and the replies it gets back, and the one piece of
    arithmetic the application does itself: total expenses and savings. */
module Finance {

  datatype Option<T> = None | Some(value: T)

  /** `datetime.now().isoformat()`, taken as an opaque string supplied by the
      caller of each action. */
  type Timestamp = string

  /** The choices of the "User Type" box; `UserTypeNotSelected` is the
      "Select..." entry, which the form lets the user save as it is. */
  datatype UserType =
    | UserTypeNotSelected | Student | YoungProfessional | MidCareerProfessional
    | SeniorProfessional | Retiree

  datatype AgeGroup =
    | AgeNotSelected | Age18To25 | Age26To35 | Age36To45 | Age46To55 | Age56To65 | Age65Plus

  /** Monthly income buckets, in rupees. */
  datatype IncomeRange =
    | IncomeNotSelected | Below25000 | From25000To50000 | From50000To100000
    | From100000To200000 | Above200000

  datatype Goal =
    | EmergencyFund | Investment | RetirementPlanning | HomePurchase | Education
    | DebtReduction | TaxPlanning

  datatype RiskTolerance = RiskNotSelected | Conservative | Moderate | Aggressive

  /** The dictionary "Save Profile" stores. The goals are the multiselect's list,
      in the order the user picked them. */
  datatype Profile = Profile(
    userType: UserType,
    ageGroup: AgeGroup,
    incomeRange: IncomeRange,
    financialGoals: seq<Goal>,
    riskTolerance: RiskTolerance,
    createdAt: Timestamp)

  /** The six fixed expense categories; every input box has `min_value=0` and
      integer steps, so each amount is a natural number. */
  datatype Expenses = Expenses(
    rent: nat, food: nat, transport: nat, utilities: nat, entertainment: nat,
    miscellaneous: nat)

  /** The dictionary "Update Financial Data" stores; `totalExpenses` is stored
      beside the categories, as the source stores it. */
  datatype FinancialData = FinancialData(
    monthlyIncome: nat,
    expenses: Expenses,
    totalExpenses: nat,
    updatedAt: Timestamp)

  datatype BudgetSummary = BudgetSummary(summary: string, generatedAt: Timestamp)

  datatype ChatExchange = ChatExchange(question: string, response: string, timestamp: Timestamp)

  /** Sum of the six categories: no category exceeds it, and it is 0 only when
      every category is 0. */
  function TotalExpenses(e: Expenses): (t: nat)
    ensures e.rent <= t && e.food <= t && e.transport <= t && e.utilities <= t &&
            e.entertainment <= t && e.miscellaneous <= t
    ensures t == 0 <==> e == Expenses(0, 0, 0, 0, 0, 0)
  {
    e.rent + e.food + e.transport + e.utilities + e.entertainment + e.miscellaneous
  }

  /** A stored record whose total agrees with its categories. */
  predicate Consistent(d: FinancialData) {
    d.totalExpenses == TotalExpenses(d.expenses)
  }

  /** `financial_data.get('monthly_income', 0) - financial_data.get('total_expenses', 0)`:
      income less expenses, with both taken as 0 before any data is entered.
      Not clamped: spending more than the income gives a negative amount. */
  function AvailableSavings(d: Option<FinancialData>): (s: int)
    ensures d.None? ==> s == 0
    ensures d.Some? ==> (s < 0 <==> d.value.totalExpenses > d.value.monthlyIncome)
    ensures d.Some? ==> s + d.value.totalExpenses == d.value.monthlyIncome
  {
    match d
    case None => 0
    case Some(f) => f.monthlyIncome - f.totalExpenses
  }

  /** For a consistent record the savings are income minus the six categories,
      and they are negative exactly when the categories add up to more than the
      income. */
  lemma SavingsOfConsistentRecord(d: FinancialData)
    requires Consistent(d)
    ensures var s := AvailableSavings(Some(d));
      s == d.monthlyIncome - (d.expenses.rent + d.expenses.food + d.expenses.transport +
                              d.expenses.utilities + d.expenses.entertainment +
                              d.expenses.miscellaneous) &&
      (s < 0 <==> TotalExpenses(d.expenses) > d.monthlyIncome)
  {
  }

  /** What a request to the language model carries. The prompt text around
      these values is fixed wording and is not modelled. */
  datatype Request =
    | BudgetSummaryRequest(userType: UserType, ageGroup: AgeGroup, incomeRange: IncomeRange,
                           income: nat, totalExpenses: nat, savings: int, expenses: Expenses,
                           goals: seq<Goal>, riskTolerance: RiskTolerance)
    | SpendingInsightsRequest(userType: UserType, income: nat, expenses: Expenses)
    | GoalPlanRequest(profile: Profile, data: Option<FinancialData>)
    | InvestmentAdviceRequest(userType: UserType, availableSavings: int,
                              riskTolerance: RiskTolerance, ageGroup: AgeGroup,
                              goals: seq<Goal>)
    | QuestionRequest(profile: Profile, data: Option<FinancialData>, question: string)
    | MarketNewsRequest

  /** What one `generate_content` call gives: the response text, or the message
      of the exception it (or reading `response.text`) raised. */
  datatype Reply = Ok(text: string) | Err(message: string)

  /** What an action shows the user: nothing (its guard did not let it run),
      a one-shot card of model text, nothing in place because the reply went
      into the session (the budget summary, drawn by its own panel), a list of
      headlines, or an error box. */
  datatype Outcome =
    | NotRun
    | Shown(text: string)
    | Stored
    | Listed(items: seq<string>)
    | Failed(message: string)

  /** The `st.error(f"...{e}")` shown when the call fails, or the text on success. */
  function Report(reply: Reply, prefix: string): Outcome {
    match reply
    case Ok(t) => Shown(t)
    case Err(m) => Failed(prefix + m)
  }

  /** Under one action's label, what the user sees determines the reply: a
      success is never shown as a failure or the other way round, and the
      exception message can be read back from the error box. */
  lemma ReportDeterminesReply(r1: Reply, r2: Reply, prefix: string)
    requires Report(r1, prefix) == Report(r2, prefix)
    ensures r1 == r2
  {
    if r1.Err? && r2.Err? {
      assert r1.message == (prefix + r1.message)[|prefix|..];
      assert r2.message == (prefix + r2.message)[|prefix|..];
    }
  }
}
