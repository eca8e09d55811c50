# Personal-finance assistant: session model

This project models the session-state machine of a single-page personal-finance
chatbot. The user saves a demographic profile, enters a monthly income and six
expense categories, and then triggers actions. Each action builds a prompt from
the stored data, sends it to a large language model and shows or stores the
reply. The actions are a budget summary, spending insights, a goal plan,
investment advice, a free-form question and a market-news refresh.

The session is a `Session` class (`session.dfy`) with the four stores the page
keeps across re-renders:
- `userProfile`: the saved profile, or `None` for the empty dictionary the page starts with;
- `financialData`: income, the six categories and their stored total;
- `budgetData`: the latest budget summary;
- `chatHistory`: the question/answer exchanges, oldest first.

Each button is a method. A method receives what the user typed in the API-key
box and, where the model is called, the model's `Reply` (`Ok(text)` or
`Err(message)`). The `Reply` stands for the network call, which is not modelled.
Each action method also returns `sent`, the request that went to the model
(`None` when its guard kept the call from happening), and the `Outcome` shown on
the page. The methods that only display (spending insights, goal plan,
investment advice) have no `modifies` clause, so Dafny itself checks that they
change nothing in the session. The market-news refresh does not receive the
session at all.

Pure parts:
- `text.dfy`: Python's `str.strip()`, `str.split('\n')` and `s[:n]`, with their characterising lemmas;
- `finance.dfy`: the records, the expense total and the un-clamped savings;
- `news.dfy`: the headline filter;
- `history.dfy`: the "Recent Conversations" view.

`scenarios.dfy` builds whole sessions on a fresh `Session` and states what the
user ends up seeing.

Points where the code's behaviour is easy to misread:
- Investment advice is not gated on financial data (`idk.py:276-282`). Without data it sends zero savings.
- No savings rate is computed anywhere; the prompt only asks the model for a "savings rate analysis".
- The history view cuts the question to 50 characters for the expander title, shows the full question inside the expander, and cuts the response to 200 characters (`idk.py:411-414`).
- The profile form and its "Save Profile" button exist only while an API key is entered (`idk.py:78-117`).
- A "Select..." choice is stored as it is. It is modelled as a `...NotSelected` constructor, not as a missing field.

## Model

| member | source | states |
|---|---|---|
| Text.TrimStartSpec | idk.py:401 | left-stripping keeps a suffix of the input, removes only whitespace, and the result does not start with whitespace |
| Text.TrimEndSpec | idk.py:401 | right-stripping keeps a prefix, removes only whitespace, and the result does not end with whitespace |
| Text.StripIsTrimmedInfix | idk.py:401 | `strip()` returns a contiguous piece of the input with only whitespace cut on either side, and the piece neither starts nor ends with whitespace |
| Text.StripIdempotent | idk.py:401 | stripping a stripped line changes nothing |
| Text.BlankIffAllSpace | idk.py:311 | `question.strip()` is empty exactly when every character of the question is whitespace (an empty question included) |
| Text.Split | idk.py:401 | `split('\n')` gives at least one piece, no piece contains a newline, and joining the pieces with newlines gives back the text |
| Text.SplitInvertsJoin | idk.py:401 | splitting is the unique inverse of joining newline-free lines, so the pieces are exactly the lines of the text |
| Text.Prefix | idk.py:412-414 | `s[:n]` has length min(n, len(s)), is a prefix of `s`, and is `s` itself when `s` is short enough |
| Finance.TotalExpenses | idk.py:150 | the stored total is at least every one of the six categories, and 0 exactly when all six are 0 |
| Finance.AvailableSavings | idk.py:282 | before any data is entered savings are 0; otherwise savings plus total expenses is the income, and savings are negative exactly when expenses exceed income |
| Finance.ReportDeterminesReply | idk.py:243-247 | under one action's label, the card or error box `Report` draws determines the reply: a success is never shown as a failure, and the exception message can be read back from the error box |
| Finance.SavingsOfConsistentRecord | idk.py:282 | savings are income minus the six categories, and negative exactly when spending exceeds income (never clamped) |
| News.Headlines | idk.py:401 | the comprehension keeps no more items than lines, and every kept item is non-empty and already stripped |
| News.HeadlinesAppend | idk.py:401 | filtering works line by line: the filter of a concatenation is the concatenation of the filters, so kept lines keep their order |
| News.HeadlinesOfOneLine | idk.py:401 | a single line yields nothing when blank and its stripped text otherwise |
| News.HeadlinesKeepNonBlank | idk.py:401 | when no line is blank, every line is kept, stripped, at its own position |
| News.NewsItems | idk.py:401-404 | the shown headlines number at most 5, are non-empty and stripped, and are the first min(5, n) of the n stripped non-blank lines |
| News.NewsItemsOfLines | idk.py:401-404 | for a reply made of given lines, the headlines are the first five stripped non-blank lines, in their original order |
| News.NewsExample | idk.py:401-404 | the reply `"A\n\nB\nC\nD\nE\nF"` shows exactly A, B, C, D, E: the blank line does not count and F is cut off |
| History.ReverseAt | idk.py:411 | `reversed` keeps the length and puts at position i the item i places from the end |
| History.Render | idk.py:412-414 | an expander's title and preview are prefixes of the question and the response; the body shows the full question and the exchange's own timestamp |
| History.HistoryView | idk.py:411-414 | the panel shows min(3, n) entries, and entry i renders the exchange i places from the newest |
| History.EntryTruncation | idk.py:412-414 | an entry's title is the question's first 50 characters and its preview the response's first 200; short texts are kept whole; the question in the body is never cut |
| History.ViewAfterAppend | idk.py:411 | after an exchange is appended it heads the panel and the previous entries move down one place, the oldest of three dropping off |
| History.ViewExample | idk.py:411 | exchanges q1, q2, q3, q4 show as q4, q3, q2 |
| App.Session.constructor | idk.py:61-68 | a new session has no profile, no financial data, no budget summary and an empty history |
| App.Session.SaveProfile | idk.py:109-117 | with an API key entered, the profile becomes exactly the submitted fields and creation time, with nothing merged from an earlier save, and from then on `AssistantEnabled` offers the quick actions and the question box (the guard of idk.py:173); without a key nothing changes; nothing else in the session changes |
| App.Session.UpdateFinancialData | idk.py:139-152 | the record is replaced by the submitted income and categories, with the total equal to the sum of the six categories; nothing else changes |
| App.Session.GenerateBudgetSummary | idk.py:181-218 | sent only with key, profile and financial data, and then it is `BudgetSummaryFor` the profile and record: five profile fields, income, total and savings; a reply replaces the stored summary and draws nothing in place (the outcome is `Stored`), and the panel of idk.py:354-357 (`ShownBudgetSummary`) then shows exactly the reply's text; a failure leaves the panel as it was and shows the error |
| App.Session.SpendingInsights | idk.py:221-247 | sent only with key, profile and financial data, carrying the user type, income and categories; the outcome is the reply text or the error; the session is not modified |
| App.Session.GoalPlanning | idk.py:250-274 | sent whenever key and profile are present, with or without financial data; the outcome is the reply text or the error; the session is not modified |
| App.Session.InvestmentAdvice | idk.py:277-305 | sent whenever key and profile are present, carrying `InvestmentAdviceFor` the profile and record: the profile's type, risk, age group and goals and savings of income minus expenses, 0 without data; the session is not modified |
| App.Session.AskQuestion | idk.py:311-345 | a blank question or a missing key or profile sends nothing; a reply appends exactly one exchange with the verbatim question at the end of the history; a failure leaves the history unchanged |
| App.RefreshMarketNews | idk.py:390-406 | the request goes out whenever a key is entered, without touching the session; a reply shows the filtered headlines (at most 5, none empty), a failure shows the error |
| Scenarios.ProfileSavedTwice | idk.py:109-117 | after two saves the stored profile is exactly the second one, with none of the first profile's goals |
| Scenarios.FailedRegenerationKeepsSummary | idk.py:211-218 | a summary generated once stays on the panel after a later generation fails, and the failure is reported |
| Scenarios.ActionsWithoutFinancialData | idk.py:180-305 | with a profile but no financial data, the budget summary is not requested, goal planning is requested with the empty record, and investment advice is requested with zero savings |
| Scenarios.BudgetEndToEnd | idk.py:139-194 | income 50000 with expenses 20000, 5000, 2000, 1000, 500 and 500 gives a budget request with total 29000 and savings 21000 |
| Scenarios.OverspendingIsNegative | idk.py:282 | spending 1500 on an income of 1000 sends savings of -500 to the model |
| Scenarios.BlankQuestionsIgnored | idk.py:311 | the questions "" and "   " reach no model and leave the history empty |
| Scenarios.FourQuestions | idk.py:339-414 | four answered questions are all kept in order, and the panel (`App.Session.RecentConversations`, the history view of the stored exchanges) shows the fourth, third and second |

## Left out

- Page configuration, CSS, widget layout, the profile-summary card and the fixed display decorations ("Q: ", the trailing "...", the bold labels): these are presentation only.
- The pie and bar charts: these are drawn by an external charting library.
- `genai.configure` and `generate_content`: this is network I/O. Each call is the `reply` parameter, and the model name is a fixed constant that is not modelled.
- The wording of each prompt and its JSON formatting: a `Request` records the values the prompt interpolates. The goal-plan and question prompts dump the whole profile, so their requests carry the whole `Profile`. The budget request carries only the five profile fields its prompt uses.
- `datetime.now()` and the `strftime` formatting of the history caption: timestamps are opaque strings passed in by the caller.
- The re-run semantics of the initialisation block, where a store already present is kept on every re-render: the constructor models only the first load, and later re-renders are the same object.
- Savings rate: the code never computes it.
