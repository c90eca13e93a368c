# vej-hjem decision logic in Dafny

vej-hjem is a Danish debt-help web site: a React front end with a debt calculator, a budget
planner and a debt self-assessment quiz, sign-in and signup, a demo chat widget, two admin
pages, a user menu, a profile hook, a consent dialog and a contact form, plus one serverless
`chat` handler that stores conversations and forwards them to a completion API.

This project models the deterministic logic of those files. Outside calls are parameters
that give each call's outcome: the Supabase queries, the auth service, the completion API,
`Date.now`, `crypto.randomUUID` and `parseFloat`. React state is a Dafny `class`:
- hooks that update fields become methods with `modifies` clauses;
- pure expressions become functions;
- properties are proved as `ensures` clauses and lemmas.

One module per source file:
- `chat_handler.dfy`: the `chat` handler. Its two tables are the fields of `ChatStore`: a
  map from session token to conversation id, and one message sequence per conversation.
  `Handle` follows the handler step by step.
- `debt_quiz.dfy`, `budget_planner.dfy`, `debt_calculator.dfy`: the three tools.
- `auth.dfy`, `chat_section.dfy`, `admin.dfy`, `admin_dashboard.dfy`, `user_menu.dfy`,
  `use_profile.dfy`, `consent_dialog.dfy`, `contact_section.dfy`: the pages and components.

Shared modules:
- `profiles.dfy`: the `profiles` row and the "first last" name that several pages build.
- `text.dfy`: JavaScript `trim`, `toLowerCase`, `toUpperCase`, `includes`, `slice` and `||`
  defaulting.
- `lists.dfy`: `filter` and `findIndex`.
- `wrappers.dfy`: `Option`.

Behaviour of the code as written, stated and proved as such:
- The history query orders by `created_at` ascending with limit 10, so the prompt holds
  the OLDEST ten messages of the conversation (`ChatHandler.HistoryWindow`). Once a
  conversation holds ten messages, the prompt stops changing
  (`ChatHandler.HistoryFrozenAfterLimit`).
- A completion answer whose message has no content is not an error: the handler stores a
  null assistant message and answers 200 with a null `response`
  (`ChatHandler.ChatStore.Handle`).
- The chat handler does not trim the message. A token the client sends that names no
  conversation is kept as the new conversation's token.
- The quiz saves a severity computed from the answers as they were before the last click
  (`DebtQuiz.StaleSeverityDiffers`).
- The recommendation text sorts the calculator's own debt list in place.
- The demo chat's keywords only match as contiguous text, so the sample question about
  debitor and kreditor gets the default reply (`ChatSection.DebitorSampleGetsDefault`).
- The second admin page searches the 'N/A' e-mail placeholder like a real address, and
  compares the CVR number case-sensitively.

## Model

| member | source | states |
|---|---|---|
| ChatHandler.ResolveSession | supabase/functions/chat/index.ts:43-80 | A non-empty token that names a conversation reuses it and is kept; otherwise a conversation is to be created under the client's non-empty token (an unknown token is reused, not replaced), or under the fresh UUID when the client sent none |
| ChatHandler.ResumeAfterCreate | supabase/functions/chat/index.ts:61-80 | A conversation created under a non-empty token is found again by that token on the next request |
| ChatHandler.HistoryWindow | supabase/functions/chat/index.ts:91-96 | The history is the first min(10, n) messages of the conversation, in creation order |
| ChatHandler.HistoryFrozenAfterLimit | supabase/functions/chat/index.ts:91-96 | Once a conversation holds ten messages, storing more never changes the history sent upstream |
| ChatHandler.LatestInWindowIff | supabase/functions/chat/index.ts:83-96 | The message just stored is in the history exactly when the conversation held fewer than ten before it |
| ChatHandler.BuildPrompt | supabase/functions/chat/index.ts:99-118 | The prompt is one system entry followed by each history row's role and content, in order |
| ChatHandler.PromptAtMostEleven | supabase/functions/chat/index.ts:91-118 | Every prompt has between 1 and 11 entries |
| ChatHandler.ChatStore.Handle | supabase/functions/chat/index.ts:11-173 | Each outcome with its exact state: OPTIONS answers CORS and touches nothing; invalid JSON gives 500; a message that is missing or empty (no trim) gives 400; a missing key gives 500; none of these exits reads or writes. A failed conversation insert gives 500 with nothing stored and no upstream call. Otherwise at most one conversation is created, the user message is stored before the history is read (a failed insert is only logged), and the prompt is sent once. A non-OK answer gives 500 with `details` "OpenAI API error: <status> <statusText>" and `apiError` the body text, keeping the user message. An answer that cannot be read as JSON with `choices[0].message` gives the 500 internal error. Otherwise the content, even a null one, is stored (a failed insert is only logged) and returned with status 200 and the active token. Every token keeps naming an existing conversation, and no token changes conversation |
| ChatHandler.ChatStore.constructor | supabase/functions/chat/index.ts:46-88 | The two tables the handler reads and writes start with no token and no conversation |
| ChatHandler.ChatStore.GetOrCreate | supabase/functions/chat/index.ts:46-80 | Returns the conversation the token names, with no change; or creates one new empty conversation under the resolved token, which no stored conversation had; or, when that insert fails, returns none and changes nothing |
| ChatHandler.ChatStore.Store | supabase/functions/chat/index.ts:83-88 | An insert appends the message to its conversation when it succeeds and changes nothing when it fails |
| ChatHandler.ResumeScenario | supabase/functions/chat/index.ts:46-164 | A first request without a token creates a session under the fresh UUID; a second request with that token reuses the conversation (a different fresh UUID is not used), and its prompt holds the earlier user message, the reply, and the new message |
| DebtQuiz.SeverityOf | src/pages/DebtQuiz.tsx:182-188 | Low exactly when the total is at most 8, medium for 9 to 20, high above 20 |
| DebtQuiz.SeverityMonotone | src/pages/DebtQuiz.tsx:182-188 | More points never give a milder result |
| DebtQuiz.TableShape | src/pages/DebtQuiz.tsx:25-96 | Seven questions; every option scores at least zero; every question has a 0-point option |
| DebtQuiz.Total | src/pages/DebtQuiz.tsx:162 | The points summed from the left; its properties are `TotalBounds`', `TotalUpdate`'s and `TotalAppend`'s |
| DebtQuiz.TotalBounds | src/pages/DebtQuiz.tsx:25-96 | The total of answered questions lies between 0 and the sum of their largest options |
| DebtQuiz.CompleteTotalRange | src/pages/DebtQuiz.tsx:25-96 | A complete set of seven answers totals 0 to 39 |
| DebtQuiz.TotalUpdate | src/pages/DebtQuiz.tsx:148-149 | Overwriting one answer changes the total by the difference |
| DebtQuiz.TotalAppend | src/pages/DebtQuiz.tsx:148-149 | Adding an answer at the end adds its points to the total |
| DebtQuiz.Quiz.constructor | src/pages/DebtQuiz.tsx:142-144 | The quiz starts at question 0, with no answers, not completed |
| DebtQuiz.Quiz.HandleAnswer | src/pages/DebtQuiz.tsx:147-158 | The points are written at the current index and every other answer stays. Before the last question the quiz advances by one. On the last it completes without advancing and saves the updated answers, their total and the severity of the answers from before the click. The page invariant holds |
| DebtQuiz.Quiz.GoToPrevious | src/pages/DebtQuiz.tsx:196-200 | Back by one except on question 0; the current question stays within 0..6 |
| DebtQuiz.Quiz.Next | src/pages/DebtQuiz.tsx:264-267 | Offered only when the current question has an answer; moves to min(current + 1, 6) |
| DebtQuiz.Quiz.ResetQuiz | src/pages/DebtQuiz.tsx:190-194 | Back to question 0, no answers, not completed |
| DebtQuiz.NextIndex | src/pages/DebtQuiz.tsx:267 | min(q + 1, 6): one more before the last question, the same on it, always a valid index |
| DebtQuiz.SaveQuizResults | src/pages/DebtQuiz.tsx:161-174 | The saved data holds the given answers and their total, the severity of the stale answers, and the question count 7 |
| DebtQuiz.StaleSeverityDiffers | src/pages/DebtQuiz.tsx:157-163 | A complete quiz worth 14 points (medium) is saved as low when the answers before the last click total 8 |
| BudgetPlanner.TotalOf | src/pages/BudgetPlanner.tsx:111-112 | The running total of one type's amounts; not negative when none of that type's amounts is |
| BudgetPlanner.TotalOfIsFilterSum | src/pages/BudgetPlanner.tsx:111-112 | The running total equals the sum, from the left, of the list filtered by type, as the source writes it |
| BudgetPlanner.TotalIncome | src/pages/BudgetPlanner.tsx:111 | The total of the income items; not negative when no income amount is |
| BudgetPlanner.TotalExpenses | src/pages/BudgetPlanner.tsx:112 | The total of the expense items; not negative when no expense amount is |
| BudgetPlanner.NetIncome | src/pages/BudgetPlanner.tsx:111-113 | Net income plus expenses equals income |
| BudgetPlanner.TotalOfConcat | src/pages/BudgetPlanner.tsx:111-112 | The per-type totals are additive over concatenation |
| BudgetPlanner.TotalsOfEmpty | src/pages/BudgetPlanner.tsx:111-113 | An empty list has income, expenses and net income 0 |
| BudgetPlanner.TotalsAfterAppend | src/pages/BudgetPlanner.tsx:102-112 | Adding an item raises its own type's total by its amount and leaves the other type's total alone |
| BudgetPlanner.SavingsRate | src/pages/BudgetPlanner.tsx:114 | 0 whenever income is not positive; otherwise net income as a percentage of income |
| BudgetPlanner.AccumulateSpec | src/pages/BudgetPlanner.tsx:118-120 | One reduce step adds the amount to that category's entry only, to the sum of all entries, and keeps the categories distinct |
| BudgetPlanner.ExpensesByCategory | src/pages/BudgetPlanner.tsx:116-121 | The record built by folding the expense items into per-category entries; no contract of its own, its properties are `ExpensesByCategorySpec`'s |
| BudgetPlanner.ExpensesByCategorySpec | src/pages/BudgetPlanner.tsx:116-121 | Entries exist exactly for categories that have an expense item; each entry holds that category's expense total; the entries sum to total expenses, so income items are not counted |
| BudgetPlanner.CategoryColor | src/pages/BudgetPlanner.tsx:123-125 | The colour of the first category of that name (or the fallback when that colour is empty); '#6B7280' for an unknown name |
| BudgetPlanner.AvailableCategories | src/pages/BudgetPlanner.tsx:127-129 | Exactly the table entries of the form's type |
| BudgetPlanner.AvailableCategoriesSpec | src/pages/BudgetPlanner.tsx:127-129 | The offered entries are exactly the table positions of the form's type, in table order |
| BudgetPlanner.WithoutId | src/pages/BudgetPlanner.tsx:107-109 | Removing by id keeps exactly the items with another id |
| BudgetPlanner.WithoutIdSpec | src/pages/BudgetPlanner.tsx:107-109 | The kept items are exactly the positions whose id differs, in order, so each survives as many times as it occurs |
| BudgetPlanner.WithoutAbsentId | src/pages/BudgetPlanner.tsx:107-109 | Removing an id no item has leaves the list unchanged |
| BudgetPlanner.Planner.constructor | src/pages/BudgetPlanner.tsx:55-61 | No items, and an empty form of type income |
| BudgetPlanner.Planner.AddItem | src/pages/BudgetPlanner.tsx:88-105 | A guest with an item already, or a form missing name, amount or category, changes nothing. Otherwise exactly one item with the form's fields goes at the end and the form resets to empty with type income |
| BudgetPlanner.Planner.RemoveItem | src/pages/BudgetPlanner.tsx:107-109 | The list becomes the order-preserving filter that drops that id |
| BudgetPlanner.Planner.SetType | src/pages/BudgetPlanner.tsx:195 | Choosing a type clears the category and keeps the other fields |
| DebtCalculator.TotalDebt | src/pages/DebtCalculator.tsx:85 | The balances summed from the left; its properties are `SumsConcat`'s and `SumsNonNegative`'s |
| DebtCalculator.TotalMinPayments | src/pages/DebtCalculator.tsx:86 | The minimum payments summed from the left; its properties are `SumsConcat`'s and `SumsNonNegative`'s |
| DebtCalculator.WeightedRates | src/pages/DebtCalculator.tsx:88 | The sum of rate times balance; its properties are `SumsConcat`'s, `AverageOfEqualRates`' and `WeightedWithinRates`' |
| DebtCalculator.SumsNonNegative | src/pages/DebtCalculator.tsx:85-86 | With non-negative balances and payments, neither total is negative |
| DebtCalculator.SumsConcat | src/pages/DebtCalculator.tsx:85-88 | Total debt, total minimum payments and the rate-weighted sum are additive over concatenation |
| DebtCalculator.AverageInterestRate | src/pages/DebtCalculator.tsx:87-89 | 0 for no debts; undefined when the balances total 0; otherwise the rate-weighted sum over total debt |
| DebtCalculator.AverageOfEqualRates | src/pages/DebtCalculator.tsx:87-89 | When all rates are equal, the weighted sum is that rate times the total debt, so the average is that rate |
| DebtCalculator.WeightedWithinRates | src/pages/DebtCalculator.tsx:85-88 | With non-negative balances, the weighted sum lies between the lowest and the highest rate times the total debt |
| DebtCalculator.AverageWithinRates | src/pages/DebtCalculator.tsx:87-89 | For a positive total debt, the average rate lies between the lowest and the highest rate of the list |
| DebtCalculator.Insert | src/pages/DebtCalculator.tsx:96 | One entry longer; with `InsertSpec`, a sorted list stays sorted and gains exactly that debt |
| DebtCalculator.SortByRate | src/pages/DebtCalculator.tsx:96 | The same length; with `SortByRateSpec`, descending rates and a permutation |
| DebtCalculator.InsertSpec | src/pages/DebtCalculator.tsx:96 | Inserting into a list sorted by descending rate keeps it sorted and adds exactly that debt |
| DebtCalculator.SortByRateSpec | src/pages/DebtCalculator.tsx:96 | The sort gives descending rates and a permutation of the list |
| DebtCalculator.SortSortedIsIdentity | src/pages/DebtCalculator.tsx:346-347 | Sorting a sorted list changes nothing, so the second sort in the text is a no-op |
| DebtCalculator.SortedHeadIsMax | src/pages/DebtCalculator.tsx:346-347 | The first debt after sorting has the highest rate of the list |
| DebtCalculator.WithoutId | src/pages/DebtCalculator.tsx:81-83 | Removing by id keeps exactly the debts with another id |
| DebtCalculator.WithoutIdSpec | src/pages/DebtCalculator.tsx:81-83 | The kept debts are exactly the positions whose id differs, in order, so each survives as many times as it occurs |
| DebtCalculator.WithoutAbsentId | src/pages/DebtCalculator.tsx:81-83 | Removing an id no debt has leaves the list unchanged |
| DebtCalculator.Calculator.constructor | src/pages/DebtCalculator.tsx:27-33 | No debts and an empty form |
| DebtCalculator.Calculator.AddDebt | src/pages/DebtCalculator.tsx:62-79 | A guest with a debt already, or a form missing any of its four fields, changes nothing. Otherwise exactly one debt goes at the end and the form is cleared |
| DebtCalculator.Calculator.RemoveDebt | src/pages/DebtCalculator.tsx:81-83 | The list becomes the order-preserving filter that drops that id |
| DebtCalculator.Calculator.CalculatePayoffTime | src/pages/DebtCalculator.tsx:91-114 | 0 for no debts. Otherwise the maximum, starting from 0, of the per-debt month figures over the copy sorted by descending rate, where only the first debt gets the extra payment. The list itself is not changed |
| DebtCalculator.Calculator.Recommendation | src/pages/DebtCalculator.tsx:346-347 | The in-place sort leaves the page's own list sorted by descending rate, as a permutation; the recommended debt is its first entry, if any |
| Auth.LoginErrorText | src/pages/Auth.tsx:53-55 | "Invalid login credentials" becomes the Danish text; any other message is shown unchanged |
| Auth.HandleLogin | src/pages/Auth.tsx:39-74 | Nothing happens unless both fields are non-empty; then success logs in, an error shows its mapped text, and an exception shows the retry text |
| Auth.ValidateSignup | src/pages/Auth.tsx:76-130 | The checks in order: silent on an empty email, password or confirmation; mismatch before length; length below 6; an individual needs trimmed first and last names, a company a trimmed name and CVR. The metadata has the chosen type and only that type's two trimmed fields |
| Auth.ReadyIff | src/pages/Auth.tsx:78-117 | A form reaches the auth service exactly when the three credentials are filled in, the passwords agree and are at least 6 long, and the chosen type's two fields are not blank |
| Auth.MetadataIsTrimmed | src/pages/Auth.tsx:124-130 | The names sent carry no surrounding whitespace |
| Auth.SignupErrorOf | src/pages/Auth.tsx:141-154 | A message containing "User already registered" gets its own text; others are shown as they are |
| Auth.SignupPage.constructor | src/pages/Auth.tsx:14-24 | All fields empty, user type individual |
| Auth.SignupPage.HandleSignup | src/pages/Auth.tsx:76-177 | A failed check, a failed call or an exception leaves every field. A success clears the email, both passwords and the four profile fields, and keeps the user type and the login fields |
| ChatSection.Reply | src/components/ChatSection.tsx:52-60 | The reply is the default or one of the table's answers |
| ChatSection.ReplyFirstMatch | src/components/ChatSection.tsx:51-60 | The reply is the answer of the first keyword, in table order, that the lower-cased text contains; the default exactly when it contains none |
| ChatSection.Answer | src/components/ChatSection.tsx:51-60 | The reply for the lower-cased text; by `ReplyFirstMatch`, the answer of the first keyword it contains, else the default |
| ChatSection.FindReply | src/components/ChatSection.tsx:51-60 | The keyword loop with its break computes the reply for the lower-cased text |
| ChatSection.KeywordOrder | src/components/ChatSection.tsx:30-35 | The table has four keywords in insertion order: inkasso, afdragsplan, ikke kan betale, debitor kreditor |
| ChatSection.ReplyWithoutKeyword | src/components/ChatSection.tsx:55-59 | A text without any of the four keywords gets the default |
| ChatSection.DebitorSampleGetsDefault | src/components/ChatSection.tsx:23-59 | The sample "Hvad er forskellen på debitor og kreditor?" matches no keyword and gets the default reply |
| ChatSection.ChatWidget.constructor | src/components/ChatSection.tsx:14-21 | A single bot greeting with id 1, an empty input, and the widget's table and default |
| ChatSection.ChatWidget.Send | src/components/ChatSection.tsx:37-72 | A blank text changes nothing. Otherwise the untrimmed user message gets id length + 1, the input is cleared, and the bot reply is fixed now with id length + 2 |
| ChatSection.ChatWidget.Deliver | src/components/ChatSection.tsx:68 | The delayed reply goes at the end of the list as it then is |
| Admin.Matches | src/pages/Admin.tsx:200-205 | Any of first name, last name, company name and CVR number matches; by `FieldMatchesIff`, a defined field containing the term, both lower-cased |
| Admin.FilterProfiles | src/pages/Admin.tsx:200-205 | No longer than the list; a profile is in it exactly when it is in the list and matches |
| Admin.FieldMatchesIff | src/pages/Admin.tsx:201-204 | A field matches exactly when it is defined and contains the term, both lower-cased |
| Admin.FilterProfilesSpec | src/pages/Admin.tsx:200-205 | The result holds exactly the positions whose profile matches, in order |
| Admin.EmptyTermMatchesDefined | src/pages/Admin.tsx:200-205 | For an empty term, a field matches exactly when it is defined, even as '' |
| Admin.EmptySearch | src/pages/Admin.tsx:200-205 | An empty search keeps exactly the profiles with at least one of the four fields defined |
| Admin.SearchIgnoresTermCase | src/pages/Admin.tsx:200-205 | A term and its lower-cased form match the same profiles |
| Admin.GetUserRole | src/pages/Admin.tsx:207-210 | The role of the first row of that user ('user' if that role is empty); 'user' when the user has no row |
| Admin.FindProfile | src/pages/Admin.tsx:480 | The first profile of that user, and none exactly when there is no such profile |
| Admin.RoleOwnerLabel | src/pages/Admin.tsx:480-488 | 'Ukendt bruger' without a matching profile; otherwise the display name of the first match |
| Admin.RoleForm.constructor | src/pages/Admin.tsx:70-71 | No user selected, role 'user' |
| Admin.RoleForm.AssignRole | src/pages/Admin.tsx:140-166 | Without a selected user or role nothing happens. Otherwise the row is inserted; a success resets the selection to '' and the role to 'user', and a failure keeps both |
| Profiles.FullName | src/pages/Admin.tsx:288 | The trimmed "first last" has no whitespace at either end |
| Profiles.FullNameEmptyIff | src/pages/Admin.tsx:288 | The full name is empty exactly when both parts are missing or only whitespace |
| Profiles.FullNameOfCleanParts | src/pages/Admin.tsx:288 | For parts without surrounding whitespace, the name is "first last", or the one part that is present, with no stray space |
| Profiles.DisplayName | src/pages/Admin.tsx:287-290 | Anyone but an individual gets a non-empty name: the company name or 'N/A'; an individual's name is covered by `DisplayNameEmptyIff` |
| Profiles.DisplayNameEmptyIff | src/pages/AdminDashboard.tsx:275-277 | The display name is empty exactly for an individual whose name parts are missing or whitespace; the company branch never shows '' |
| AdminDashboard.EmailOf | src/pages/AdminDashboard.tsx:85-96 | 'N/A' when the lookup throws or gives no e-mail; otherwise the returned e-mail; never empty |
| AdminDashboard.WithEmails | src/pages/AdminDashboard.tsx:83-98 | Every profile in its place, with the e-mail of its own lookup: that lookup's non-empty e-mail, or 'N/A' when it threw or gave none |
| AdminDashboard.Matches | src/pages/AdminDashboard.tsx:161-167 | First name, last name, company name or e-mail contains the term lower-cased, or the CVR number contains it as typed; see `PlaceholderMatches` and `CvrCaseSensitive` |
| AdminDashboard.FilterProfiles | src/pages/AdminDashboard.tsx:161-167 | No longer than the list; a row is in it exactly when it is in the list and matches |
| AdminDashboard.FilterProfilesSpec | src/pages/AdminDashboard.tsx:161-167 | The result holds exactly the positions whose row matches, in order |
| AdminDashboard.PlaceholderMatches | src/pages/AdminDashboard.tsx:89-165 | A row whose e-mail is the 'N/A' placeholder matches any term that lower-cases to "n/a" |
| AdminDashboard.PlaceholderSearch | src/pages/AdminDashboard.tsx:83-167 | Every profile whose lookup gave no e-mail is listed by a search for "n/a" in any case |
| AdminDashboard.CvrCaseSensitive | src/pages/AdminDashboard.tsx:166 | The CVR number is compared as typed: "AB12" is found by "AB12" but not by "ab12", whereas the other admin page finds it by both |
| AdminDashboard.DeleteProfile | src/pages/AdminDashboard.tsx:121-128 | A refused confirmation does nothing; an accepted one deletes the auth user by its user id |
| AdminDashboard.DeleteRecord | src/pages/AdminDashboard.tsx:140-149 | A refused confirmation does nothing; an accepted one deletes that row of that table |
| UserMenu.Initials | src/components/UserMenu.tsx:74-84 | The avatar text is one or two characters |
| UserMenu.InitialsWithoutProfile | src/components/UserMenu.tsx:75 | Without a profile: the e-mail's first one or two characters upper-cased, or '?' |
| UserMenu.InitialsOfCompany | src/components/UserMenu.tsx:77-78 | A company: the first one or two characters of its name upper-cased, or 'V' when that is missing or empty |
| UserMenu.InitialsOfIndividual | src/components/UserMenu.tsx:79-83 | Anyone else: the upper-cased first letters of the first and last name, the one that is present, or '?' |
| UserMenu.DisplayText | src/components/UserMenu.tsx:86-94 | The e-mail without a profile; otherwise a non-empty name, or the e-mail |
| UserMenu.DisplayTextOfIndividual | src/components/UserMenu.tsx:91-92 | An individual's label is the full name, or the e-mail when both name parts are blank |
| UserMenu.Render | src/components/UserMenu.tsx:72 | Nothing is rendered exactly when there is no user |
| UseProfile.GetDisplayName | src/hooks/useProfile.tsx:85-86 | '' without a profile |
| UseProfile.AgreesWithAdminName | src/hooks/useProfile.tsx:85-93 | Equals the admin pages' display name except that a company without a name gets '' instead of 'N/A'; '' exactly for a blank individual name or a missing or empty company name |
| UseProfile.FetchedProfile | src/hooks/useProfile.tsx:47-55 | The fetched row, and none exactly on an error or an exception |
| UseProfile.UpdateAnswer | src/hooks/useProfile.tsx:72-81 | `{ error }` with the query's message or the fixed text for an exception; `{ data }` with the row exactly on success |
| UseProfile.ProfileHook.constructor | src/hooks/useProfile.tsx:23-24 | No profile, loading |
| UseProfile.ProfileHook.UserChanged | src/hooks/useProfile.tsx:27-59 | No user means no profile; otherwise the fetched row or none on failure; loading ends in both cases |
| UseProfile.ProfileHook.UpdateProfile | src/hooks/useProfile.tsx:61-83 | Without a user or a profile: 'No user or profile found', nothing sent or written. Otherwise the update is sent; the profile becomes the returned row on success and stays on failure |
| ConsentDialog.ToolDisplayName | src/components/ConsentDialog.tsx:31-38 | Each of the three tool keys maps to its Danish name, and any other key to 'værktøjet' |
| ConsentDialog.OnClose | src/components/ConsentDialog.tsx:23-100 | True exactly for an enabled accept; false for decline or dismiss; nothing for the disabled accept |
| ConsentDialog.ConsentNeedsCheck | src/components/ConsentDialog.tsx:21-100 | The dialog closes with true exactly when accept is pressed after the box was last checked; never with the box untouched |
| ContactSection.ContactForm.constructor | src/components/ContactSection.tsx:10-11 | Both fields start empty |
| ContactSection.ContactForm.HandleSubmit | src/components/ContactSection.tsx:14-33 | An e-mail that is empty or only whitespace is refused and both fields stay as typed (the trim is for the check only). Anything else is thanked, whatever the message, and both fields are cleared |
| Text.Trim | src/components/ContactSection.tsx:16 | The trimmed text is empty or has no whitespace at either end |
| Text.TrimEmptyIff | src/components/ContactSection.tsx:16 | A text trims to '' exactly when it is only whitespace |
| Text.TrimIdempotent | src/pages/Auth.tsx:127-128 | Trimming twice is trimming once |
| Text.TrimJoin | src/pages/Admin.tsx:288 | Trimming two clean parts joined by one space gives the join, or the present part |
| Text.ToLowerIdempotent | src/pages/Admin.tsx:201-204 | Lower-casing twice is lower-casing once |
| Text.ToLower | src/pages/Admin.tsx:201-204 | Keeps the length; with `ToLowerAt`, each code point is lower-cased in its place |
| Text.ToLowerAt | src/pages/Admin.tsx:201-204 | Position i of the result is the lower-cased code point i |
| Text.ToUpper | src/components/UserMenu.tsx:74-84 | Keeps the length; with `ToUpperAt`, each code point is upper-cased in its place |
| Text.ToUpperAt | src/components/UserMenu.tsx:74-84 | Position i of the result is the upper-cased code point i |
| Text.Contains | src/pages/Admin.tsx:201-204 | `includes`: the term occurs as a contiguous run; decided by `ContainsFrom` |
| Text.ContainsFrom | src/pages/Admin.tsx:201-204 | True exactly when the term occurs at some position from the start index on |
| Text.ContainsEmpty | src/pages/Admin.tsx:201-204 | Every text contains the empty term |
| Lists.Filter | src/pages/BudgetPlanner.tsx:108 | No longer than its input; holds only elements of the input that satisfy the predicate, and every one that does |
| Lists.FilterConcat | src/pages/BudgetPlanner.tsx:111-112 | Filtering distributes over concatenation |
| Lists.FilterIsSublist | src/pages/Admin.tsx:200 | A filter result is the input at exactly the positions whose element satisfies the predicate, in order |
| Lists.FilterAll | src/pages/BudgetPlanner.tsx:108 | A predicate every element satisfies keeps the whole list |
| Lists.FindIndex | src/pages/Admin.tsx:208 | None exactly when no element satisfies the predicate; otherwise the first one that does |

## Left out

- Outside calls: the Supabase queries and inserts, the auth service, the completion API, `confirm`, `crypto.randomUUID`, `Date.now` and `parseFloat`. Each is a parameter that gives the call's outcome (a success flag, a returned row, a reply, an id, a number).
- The history query's own failure: it gives no rows (parameter `historyOk`). The handler ignores a lookup error on an existing token. The model treats such an error as not found, and does not model other lookup failures.
- ChatHandler.ChatStore.Handle: a content that is absent from the answer and one that is `null` are both `None`. The source returns `{"session_id": …}` without a `response` key for the first and `"response": null` for the second. It also stores `undefined` and `null` the same way, as a NULL content.
- ChatHandler.ChatStore.Handle: the fresh UUID is required to be non-empty and to name no stored conversation. `crypto.randomUUID` makes a collision practically impossible, and the model does not cover one.
- The chat handler's response headers, the upstream request's model name, token limit and temperature, and the system prompt's text, which is a configuration parameter.
- A request body whose `message` or `session_id` is not a string. The model reads both as optional strings.
- Two concurrent chat requests with the same token can create duplicate conversations. The model handles one request at a time against a consistent store.
- Floating point: amounts, rates and totals are exact `real`s. NaN and Infinity appear only as `None` from `DebtCalculator.AverageInterestRate`. The payoff logarithm is the parameter `monthsFor`. The progress and savings percentages are not rounded or formatted.
- `toFixed`, `toLocaleString`, rendering, routing, toasts, the loading spinners and the refetch after a delete or an assignment.
- ChatSection.ChatWidget.Send: the id collision that can follow when two replies are pending is only stated. The bot id is fixed at send time and the reply is appended on delivery. The one-second `setTimeout` is not modelled.
- Text.ToLower, Text.ToUpper: map ASCII and Latin-1 letters only. JavaScript also maps the rest of Unicode, and a few characters change length (for example 'ß' upper-cases to "SS"). `UserMenu.Initials` therefore proves at most two characters, which holds only for this mapping.
- Strings are sequences of code points. JavaScript's `slice`, `charAt` and `length` count UTF-16 units, so they differ for characters outside the Basic Multilingual Plane.
- BudgetPlanner.ExpensesByCategory: the record keeps key insertion order. JavaScript lists integer-like keys first, and the model does not.
- DebtCalculator.SortByRate: a stable insertion sort. The engine's sort is stable too, but the model does not prove that this particular order is the engine's.
- The comparator `b.interestRate - a.interestRate` is taken as "descending rate". The NaN a non-numeric rate would produce is not modelled.
- UseProfile.ProfileHook.UserChanged: states the state once the fetch has finished. The interval in which `loading` is true during the fetch is not a separate step.
- DebtQuiz.Quiz.HandleAnswer: requires the points to be one of the current question's options, since only the option buttons call it. It also requires the quiz not to be completed, because the buttons are not rendered then.
- `exportData` and the first admin page's `deleteProfile` (no confirmation, delete by profile id): plain I/O.
- The admin access checks that redirect non-admins, and the sign-in page's redirect of a signed-in user.
- `useToolSession`, `useDataCollection` and `ConsentBanner`: they only read and write storage.
- The static content pages `BusinessPartners`, `AboutSection`, `GlossarySection`, `ToolsSection`, `HeroSection`, `Navigation` and `Index`: they hold no logic.
- The quiz question and answer texts and the result texts. Only the points table and the severity rule are modelled.
