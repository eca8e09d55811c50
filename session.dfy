/** The per-browser session state of the finance assistant and the user actions
    that read and change it. Every action gets the API-key box's content and,
    when it calls the language model, the model's reply as parameters; its
    `sent` result says which request, if any, went to the model. */
module App {
  import opened Text
  import opened Finance
  import opened News
  import opened History

  const BudgetErrorPrefix := "Error generating budget summary: "
  const InsightsErrorPrefix := "Error generating insights: "
  const GoalPlanErrorPrefix := "Error generating goal plan: "
  const InvestmentErrorPrefix := "Error generating investment advice: "
  const QuestionErrorPrefix := "Error: "
  const NewsErrorPrefix := "Error fetching news: "

  /** The values the budget prompt interpolates: five profile fields (never its
      creation time), income, the stored total, income less that total and the
      six categories. */
  function BudgetSummaryFor(p: Profile, d: FinancialData): Request {
    BudgetSummaryRequest(p.userType, p.ageGroup, p.incomeRange, d.monthlyIncome, d.totalExpenses,
                         AvailableSavings(Some(d)), d.expenses, p.financialGoals, p.riskTolerance)
  }

  /** The values the investment prompt interpolates, savings 0 without data. */
  function InvestmentAdviceFor(p: Profile, d: Option<FinancialData>): Request {
    InvestmentAdviceRequest(p.userType, AvailableSavings(d), p.riskTolerance, p.ageGroup,
                            p.financialGoals)
  }

  class Session {
    /** `None` is the empty dictionary the session starts with. */
    var userProfile: Option<Profile>
    var financialData: Option<FinancialData>
    var budgetData: Option<BudgetSummary>
    var chatHistory: seq<ChatExchange>

    /** The stored total always agrees with the stored categories. */
    predicate Valid()
      reads this
    {
      financialData.Some? ==> Consistent(financialData.value)
    }

    /** The quick actions and the free-form question are offered only with an
        API key entered and a profile saved. */
    predicate AssistantEnabled(apiKey: string)
      reads this
    {
      apiKey != "" && userProfile.Some?
    }

    /** The first load of the page: every store empty. */
    constructor ()
      ensures Valid()
      ensures userProfile == None && financialData == None && budgetData == None
      ensures chatHistory == []
    {
      userProfile := None;
      financialData := None;
      budgetData := None;
      chatHistory := [];
    }

    /** "Save Profile", a button that exists only while an API key is entered:
        the profile is replaced by exactly the submitted fields, and with it the
        quick actions and the free-form question are offered. */
    method SaveProfile(apiKey: string, userType: UserType, ageGroup: AgeGroup,
                       incomeRange: IncomeRange, goals: seq<Goal>,
                       riskTolerance: RiskTolerance, now: Timestamp)
      requires Valid()
      modifies this`userProfile
      ensures Valid()
      ensures userProfile ==
        if apiKey != "" then Some(Profile(userType, ageGroup, incomeRange, goals, riskTolerance, now))
        else old(userProfile)
      ensures apiKey != "" ==> AssistantEnabled(apiKey)
    {
      if apiKey != "" {
        userProfile := Some(Profile(userType, ageGroup, incomeRange, goals, riskTolerance, now));
      }
    }

    /** "Update Financial Data": the stored record is replaced by the submitted
        amounts and their freshly computed total. */
    method UpdateFinancialData(income: nat, rent: nat, food: nat, transport: nat,
                               utilities: nat, entertainment: nat, miscellaneous: nat,
                               now: Timestamp)
      requires Valid()
      modifies this`financialData
      ensures Valid()
      ensures financialData == Some(FinancialData(
        income, Expenses(rent, food, transport, utilities, entertainment, miscellaneous),
        rent + food + transport + utilities + entertainment + miscellaneous, now))
    {
      var e := Expenses(rent, food, transport, utilities, entertainment, miscellaneous);
      financialData := Some(FinancialData(income, e, TotalExpenses(e), now));
    }

    /** "Generate Budget Summary": runs only with financial data entered; a
        reply replaces the stored summary, which the summary panel then draws
        (nothing is drawn in place), and a failure leaves it as it was. */
    method GenerateBudgetSummary(apiKey: string, reply: Reply, now: Timestamp)
      returns (sent: Option<Request>, outcome: Outcome)
      requires Valid()
      modifies this`budgetData
      ensures Valid()
      ensures sent == if AssistantEnabled(apiKey) && financialData.Some?
                      then Some(BudgetSummaryFor(userProfile.value, financialData.value))
                      else None
      ensures budgetData == if sent.Some? && reply.Ok?
                            then Some(BudgetSummary(reply.text, now)) else old(budgetData)
      ensures ShownBudgetSummary() ==
        if sent.Some? && reply.Ok? then Some(reply.text) else old(ShownBudgetSummary())
      ensures outcome == if sent.None? then NotRun
                         else if reply.Ok? then Stored
                         else Failed(BudgetErrorPrefix + reply.message)
    {
      sent, outcome := None, NotRun;
      if AssistantEnabled(apiKey) && financialData.Some? {
        sent := Some(BudgetSummaryFor(userProfile.value, financialData.value));
        match reply
        case Ok(t) =>
          budgetData := Some(BudgetSummary(t, now));
          outcome := Stored;
        case Err(m) =>
          outcome := Failed(BudgetErrorPrefix + m);
      }
    }

    /** "Spending Insights": runs only with financial data entered; the reply is
        shown once and nothing in the session changes. */
    method SpendingInsights(apiKey: string, reply: Reply) returns (sent: Option<Request>, outcome: Outcome)
      ensures sent.Some? <==> AssistantEnabled(apiKey) && financialData.Some?
      ensures sent.Some? ==>
        sent.value == SpendingInsightsRequest(userProfile.value.userType,
                                             financialData.value.monthlyIncome,
                                             financialData.value.expenses)
      ensures outcome == if sent.None? then NotRun
                         else if reply.Ok? then Shown(reply.text)
                         else Failed(InsightsErrorPrefix + reply.message)
    {
      sent, outcome := None, NotRun;
      if AssistantEnabled(apiKey) && financialData.Some? {
        var p, d := userProfile.value, financialData.value;
        sent := Some(SpendingInsightsRequest(p.userType, d.monthlyIncome, d.expenses));
        outcome := Report(reply, InsightsErrorPrefix);
      }
    }

    /** "Goal Planning": needs no financial data (the prompt then carries the
        empty record); the reply is shown once and nothing changes. */
    method GoalPlanning(apiKey: string, reply: Reply) returns (sent: Option<Request>, outcome: Outcome)
      ensures sent.Some? <==> AssistantEnabled(apiKey)
      ensures sent.Some? ==> sent.value == GoalPlanRequest(userProfile.value, financialData)
      ensures outcome == if sent.None? then NotRun
                         else if reply.Ok? then Shown(reply.text)
                         else Failed(GoalPlanErrorPrefix + reply.message)
    {
      sent, outcome := None, NotRun;
      if AssistantEnabled(apiKey) {
        sent := Some(GoalPlanRequest(userProfile.value, financialData));
        outcome := Report(reply, GoalPlanErrorPrefix);
      }
    }

    /** "Investment Advice": needs no financial data (the savings are then 0);
        the reply is shown once and nothing changes. */
    method InvestmentAdvice(apiKey: string, reply: Reply) returns (sent: Option<Request>, outcome: Outcome)
      requires Valid()
      ensures sent.Some? <==> AssistantEnabled(apiKey)
      ensures sent.Some? ==>
        (sent.value.InvestmentAdviceRequest? &&
         sent.value.userType == userProfile.value.userType &&
         sent.value.riskTolerance == userProfile.value.riskTolerance &&
         sent.value.ageGroup == userProfile.value.ageGroup &&
         sent.value.goals == userProfile.value.financialGoals &&
         sent.value.availableSavings ==
           (if financialData.None? then 0
            else financialData.value.monthlyIncome - TotalExpenses(financialData.value.expenses)))
      ensures outcome == if sent.None? then NotRun
                         else if reply.Ok? then Shown(reply.text)
                         else Failed(InvestmentErrorPrefix + reply.message)
    {
      sent, outcome := None, NotRun;
      if AssistantEnabled(apiKey) {
        sent := Some(InvestmentAdviceFor(userProfile.value, financialData));
        outcome := Report(reply, InvestmentErrorPrefix);
      }
    }

    /** "Get Personalized Advice": a blank question is never sent; a reply is
        shown and appended, with the verbatim question, as the newest exchange;
        a failure leaves the history as it was. */
    method AskQuestion(apiKey: string, question: string, reply: Reply, now: Timestamp)
      returns (sent: Option<Request>, outcome: Outcome)
      requires Valid()
      modifies this`chatHistory
      ensures Valid()
      ensures sent == if AssistantEnabled(apiKey) && !IsBlank(question)
                      then Some(QuestionRequest(userProfile.value, financialData, question))
                      else None
      ensures chatHistory == if sent.Some? && reply.Ok?
                             then old(chatHistory) + [ChatExchange(question, reply.text, now)]
                             else old(chatHistory)
      ensures outcome == if sent.Some? then Report(reply, QuestionErrorPrefix) else NotRun
    {
      sent, outcome := None, NotRun;
      if AssistantEnabled(apiKey) && !IsBlank(question) {
        sent := Some(QuestionRequest(userProfile.value, financialData, question));
        outcome := Report(reply, QuestionErrorPrefix);
        if reply.Ok? {
          chatHistory := chatHistory + [ChatExchange(question, reply.text, now)];
        }
      }
    }

    /** The "Budget Summary" panel: the stored summary text, if any. */
    function ShownBudgetSummary(): Option<string>
      reads this
    {
      if budgetData.Some? then Some(budgetData.value.summary) else None
    }

    /** The "Recent Conversations" panel. */
    function RecentConversations(): seq<HistoryEntry>
      reads this
    {
      HistoryView(chatHistory)
    }
  }

  /** "Refresh Market News": offered whenever an API key is entered, with or
      without a profile; it does not see the session at all. */
  method RefreshMarketNews(apiKey: string, reply: Reply) returns (sent: Option<Request>, outcome: Outcome)
    ensures sent == if apiKey != "" then Some(MarketNewsRequest) else None
    ensures outcome == if sent.None? then NotRun
                       else if reply.Ok? then Listed(NewsItems(reply.text))
                       else Failed(NewsErrorPrefix + reply.message)
    ensures outcome.Listed? ==>
      (|outcome.items| <= MaxHeadlines &&
       forall k :: 0 <= k < |outcome.items| ==> outcome.items[k] != "")
  {
    sent, outcome := None, NotRun;
    if apiKey != "" {
      sent := Some(MarketNewsRequest);
      match reply
      case Ok(t) => outcome := Listed(NewsItems(t));
      case Err(m) => outcome := Failed(NewsErrorPrefix + m);
    }
  }
}
