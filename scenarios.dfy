/** Whole sessions of the assistant, each built on a fresh session, stating
    what the user ends up seeing. */
module Scenarios {
  import opened Text
  import opened Finance
  import opened History
  import opened App

  /** Saving a second profile leaves nothing of the first: goals picked in the
      first save do not survive a second save with other goals. */
  method ProfileSavedTwice(apiKey: string, first: Profile, second: Profile) returns (stored: Option<Profile>)
    requires apiKey != ""
    ensures stored == Some(second)
  {
    var s := new Session();
    s.SaveProfile(apiKey, first.userType, first.ageGroup, first.incomeRange,
                  first.financialGoals, first.riskTolerance, first.createdAt);
    s.SaveProfile(apiKey, second.userType, second.ageGroup, second.incomeRange,
                  second.financialGoals, second.riskTolerance, second.createdAt);
    stored := s.userProfile;
  }

  /** A summary that was generated stays on the panel after a later attempt
      to regenerate it fails. */
  method FailedRegenerationKeepsSummary(apiKey: string, p: Profile, income: nat, rent: nat,
                                        summary: string, error: string, t1: Timestamp, t2: Timestamp)
    returns (shown: Option<string>, second: Outcome)
    requires apiKey != ""
    ensures shown == Some(summary)
    ensures second == Failed(BudgetErrorPrefix + error)
  {
    var s := new Session();
    s.SaveProfile(apiKey, p.userType, p.ageGroup, p.incomeRange, p.financialGoals,
                  p.riskTolerance, p.createdAt);
    s.UpdateFinancialData(income, rent, 0, 0, 0, 0, 0, t1);
    var r, o := s.GenerateBudgetSummary(apiKey, Ok(summary), t1);
    r, o := s.GenerateBudgetSummary(apiKey, Err(error), t2);
    shown, second := s.ShownBudgetSummary(), o;
  }

  /** Without financial data the budget summary is not requested at all, while
      goal planning is, with the empty record, and investment advice is, with
      zero savings. */
  method ActionsWithoutFinancialData(apiKey: string, p: Profile, reply: Reply)
    returns (budget: Option<Request>, goals: Option<Request>, invest: Option<Request>)
    requires apiKey != ""
    ensures budget == None
    ensures goals == Some(GoalPlanRequest(p, None))
    ensures invest.Some? && invest.value.InvestmentAdviceRequest? && invest.value.availableSavings == 0
  {
    var s := new Session();
    s.SaveProfile(apiKey, p.userType, p.ageGroup, p.incomeRange, p.financialGoals,
                  p.riskTolerance, p.createdAt);
    var ignored: Outcome;
    budget, ignored := s.GenerateBudgetSummary(apiKey, reply, p.createdAt);
    goals, ignored := s.GoalPlanning(apiKey, reply);
    invest, ignored := s.InvestmentAdvice(apiKey, reply);
  }

  /** Income 50000 against expenses of 20000, 5000, 2000, 1000, 500 and 500:
      the budget request reports 29000 spent and 21000 saved. */
  method BudgetEndToEnd(apiKey: string, p: Profile, reply: Reply, now: Timestamp)
    returns (sent: Option<Request>)
    requires apiKey != ""
    ensures sent.Some? && sent.value.BudgetSummaryRequest?
    ensures sent.value.totalExpenses == 29000 && sent.value.savings == 21000
  {
    var s := new Session();
    s.SaveProfile(apiKey, p.userType, p.ageGroup, p.incomeRange, p.financialGoals,
                  p.riskTolerance, p.createdAt);
    s.UpdateFinancialData(50000, 20000, 5000, 2000, 1000, 500, 500, now);
    var ignored: Outcome;
    sent, ignored := s.GenerateBudgetSummary(apiKey, reply, now);
  }

  /** Overspending is reported as negative savings, not as zero. */
  method OverspendingIsNegative(apiKey: string, p: Profile, reply: Reply, now: Timestamp)
    returns (sent: Option<Request>)
    requires apiKey != ""
    ensures sent.Some? && sent.value.InvestmentAdviceRequest? && sent.value.availableSavings == -500
  {
    var s := new Session();
    s.SaveProfile(apiKey, p.userType, p.ageGroup, p.incomeRange, p.financialGoals,
                  p.riskTolerance, p.createdAt);
    s.UpdateFinancialData(1000, 1000, 500, 0, 0, 0, 0, now);
    var ignored: Outcome;
    sent, ignored := s.InvestmentAdvice(apiKey, reply);
  }

  /** An empty or all-space question is not sent and not recorded. */
  method BlankQuestionsIgnored(apiKey: string, p: Profile, reply: Reply, now: Timestamp)
    returns (first: Option<Request>, second: Option<Request>, history: seq<ChatExchange>)
    ensures first == None && second == None && history == []
  {
    var s := new Session();
    s.SaveProfile(apiKey, p.userType, p.ageGroup, p.incomeRange, p.financialGoals,
                  p.riskTolerance, p.createdAt);
    assert IsBlank("");
    assert IsBlank("   ");
    var ignored: Outcome;
    first, ignored := s.AskQuestion(apiKey, "", reply, now);
    second, ignored := s.AskQuestion(apiKey, "   ", reply, now);
    history := s.chatHistory;
  }

  /** Four answered questions: the history holds all four, the panel shows the
      fourth, third and second, newest first. */
  method FourQuestions(apiKey: string, p: Profile, q: seq<string>, a: seq<string>, t: seq<Timestamp>)
    returns (history: seq<ChatExchange>, shown: seq<HistoryEntry>)
    requires apiKey != ""
    requires |q| == 4 && |a| == 4 && |t| == 4
    requires forall i :: 0 <= i < 4 ==> !IsBlank(q[i])
    ensures |history| == 4
    ensures forall i :: 0 <= i < 4 ==> history[i] == ChatExchange(q[i], a[i], t[i])
    ensures |shown| == 3
    ensures forall i :: 0 <= i < 3 ==> shown[i].question == q[3 - i]
  {
    var s := new Session();
    s.SaveProfile(apiKey, p.userType, p.ageGroup, p.incomeRange, p.financialGoals,
                  p.riskTolerance, p.createdAt);
    var r, o := s.AskQuestion(apiKey, q[0], Ok(a[0]), t[0]);
    r, o := s.AskQuestion(apiKey, q[1], Ok(a[1]), t[1]);
    r, o := s.AskQuestion(apiKey, q[2], Ok(a[2]), t[2]);
    r, o := s.AskQuestion(apiKey, q[3], Ok(a[3]), t[3]);
    history := s.chatHistory;
    shown := s.RecentConversations();
  }
}
