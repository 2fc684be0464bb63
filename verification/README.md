# Clarity Piggybank: the transaction logic, modelled in Dafny

Clarity Piggybank is a personal-finance web app. Users record income and
expense transactions, see them charted, and can have a language model fill
in a transaction from a free-text description. This project models the
parts of the app that decide something. It covers:

- **The chat assistant** (`src/components/ai/FinancialAssistant.tsx`). It
  reads an Arabic sentence and finds the transaction in it. The sentence's
  Arabic-Indic and Persian digits are turned into ASCII digits, and the
  largest number becomes the amount. Keyword lists decide the type, which
  is expense when both lists match. The first matching category rule gives
  the category. The chat then shows the user's message and a confirmation
  or an apology (`Numerals`, `Assistant`).
- **The overview charts** (`src/components/charts/FinancialOverview.tsx`).
  The monthly bars add income and non-income amounts per
  "short month + 2-digit year" label. The expense pie adds expense amounts
  per category. Bars and slices appear in first-seen order (`Overview`).
- **The add/edit transaction dialog**
  (`src/components/forms/TransactionForm.tsx`). It covers the field
  schema, the default values and the calculator keypad. It also covers
  the two AI fill-in handlers and the submit step (`TransactionForm`).
- **The `analyze-transaction` edge function**
  (`supabase/functions/analyze-transaction/index.ts`). It asks the model
  for a `{ transaction: { type, amount, category, description } }` object,
  checks that shape, and returns the object
  (`AnalyzeTransactionFunction`).
- **The `ai-finance` edge function**
  (`supabase/functions/ai-finance/index.ts`). It dispatches on `action`,
  asks the model for a reply, checks the reply for five required fields,
  and returns it JSON-encoded inside `{ result }`
  (`AiFinanceFunction`).

Shared modules:

- `Wrappers` holds `Option` and `Result`.
- `Strings` holds whitespace trimming and substring search.
- `Ledger` holds the income/expense kind.
- `JsonValues` holds parsed JSON values: property lookup, `in`,
  truthiness, and `JSON.stringify` with a string-literal decoder to check
  it against.
- `Http` holds requests, thrown errors and responses as the two edge
  functions see them.

The model works as follows:

- Pure computations are functions. Their properties are stated as
  `ensures` clauses or as lemmas.
- React components that keep state become classes. Their fields are the
  component's state, and each handler is a method whose postcondition
  gives the complete new state.
- Each `reduce` of the overview is a `while` loop, proved equal to a
  fold function. Lemmas then say what the fold's bars and slices add up
  to.
- Inputs the code does not compute become parameters:
  - the clock readings used as message ids
  - the outcome of a database insert
  - the value read from local storage
  - what `eval` returns
  - what a model call settles to

## Model

| member | source | states |
|---|---|---|
| Numerals.EnglishDigit | src/components/ai/FinancialAssistant.tsx:24-31 | an Arabic-Indic or Persian digit maps to the ASCII digit of the same value; every other character is kept |
| Numerals.ToEnglishNumbers | src/components/ai/FinancialAssistant.tsx:33-35 | the conversion keeps the length and maps each character on its own |
| Numerals.ToEnglishNumbersIdempotent | src/components/ai/FinancialAssistant.tsx:33-35 | converting twice is the same as converting once |
| Numerals.ToEnglishNumbersAppend | src/components/ai/FinancialAssistant.tsx:33-35 | the conversion distributes over concatenation |
| Numerals.ToEnglishNumbersIdentity | src/components/ai/FinancialAssistant.tsx:33-35 | text without local digits is left unchanged |
| Numerals.ScanNumeral | src/components/ai/FinancialAssistant.tsx:39 | one match of `\d+(?:\.\d+)?`: a well-formed numeral that is exactly the consumed prefix and is not followed by a further digit; a whole-number match is never followed by a point and a digit, since the fraction is taken greedily |
| Numerals.ScanOfNumeral | src/components/ai/FinancialAssistant.tsx:39 | scanning a numeral's own text, followed by a character that cannot extend it, gives back that numeral and its length |
| Numerals.Tokens | src/components/ai/FinancialAssistant.tsx:39 | every match is a well-formed numeral; there are no matches exactly when the text has no digit |
| Numerals.TokensSkipPrefix | src/components/ai/FinancialAssistant.tsx:39 | a prefix without digits contributes no match |
| Numerals.TokensOfNumeral | src/components/ai/FinancialAssistant.tsx:39 | a digit-free head, a numeral and a tail that does not extend it give that numeral followed by the tail's matches, so the matches are the text's numerals in order |
| Numerals.TwoNumerals | src/components/ai/FinancialAssistant.tsx:39 | two numerals separated by digit-free text not starting with a point are matched as both, in order |
| Numerals.MaxOf | src/components/ai/FinancialAssistant.tsx:41 | `Math.max` of a non-empty list is one of its elements and no element exceeds it |
| Numerals.ExtractAmount | src/components/ai/FinancialAssistant.tsx:37-42 | `null` exactly when the converted text has no digit; otherwise a non-negative value that is the largest numeral matched |
| Numerals.NoAmountIffNoDigit | src/components/ai/FinancialAssistant.tsx:37-42 | no amount exactly when the original text has neither an ASCII nor a local digit |
| Numerals.ArabicIndicSameAmount | src/components/ai/FinancialAssistant.tsx:33-42 | writing the digits in Arabic-Indic form changes neither the converted text nor the amount |
| Numerals.OnlyNumberIsAmount | src/components/ai/FinancialAssistant.tsx:37-42 | a text with a single run of digits yields that run's value |
| Numerals.ArabicFiftyIsFifty | src/components/ai/FinancialAssistant.tsx:37-42 | "٥٠" between digit-free text gives the amount 50 |
| Numerals.NumeralIsAmount | src/components/ai/FinancialAssistant.tsx:37-42 | a text whose only number is one numeral, decimal or whole, yields that numeral's value |
| Numerals.LargestWins | src/components/ai/FinancialAssistant.tsx:37-42 | of two numbers in a text, the amount is the larger, whichever comes first |
| Numerals.ArabicDecimalSeparatorSplits | src/components/ai/FinancialAssistant.tsx:24-42 | "١٫٥" (one and a half, with the Arabic decimal separator) is read as the numbers 1 and 5, so the amount is 5 |
| Strings.Trim | src/components/ai/FinancialAssistant.tsx:45 | the trimmed text is empty exactly when the text is all whitespace; otherwise it starts and ends with a non-space; it is the text with a run of whitespace removed at each end |
| Strings.TrimIdempotent | src/components/ai/FinancialAssistant.tsx:45 | trimming a trimmed text changes nothing |
| Assistant.Normalize | src/components/ai/FinancialAssistant.tsx:45 | the normalised text is empty exactly when the input is all whitespace, and otherwise neither starts nor ends with whitespace |
| Strings.TrimKeepsChars | src/components/ai/FinancialAssistant.tsx:45 | trimming adds no characters |
| Assistant.CategoryFrom | src/components/ai/FinancialAssistant.tsx:58-64 | from rule i on: the default category exactly when no later rule matches; otherwise the category of the first matching rule |
| Assistant.Categorize | src/components/ai/FinancialAssistant.tsx:58-64 | the "other" category exactly when no rule matches; otherwise the category of the first matching rule |
| Assistant.AnalyzeTransaction | src/components/ai/FinancialAssistant.tsx:44-72 | `null` exactly when no keyword matches or the amount is missing or zero; otherwise expense iff an expense keyword matches, with the amount, the category and the original text |
| Assistant.ExpenseWins | src/components/ai/FinancialAssistant.tsx:67 | a sentence with both expense and income keywords is an expense |
| Assistant.ExpenseExtraction | src/components/ai/FinancialAssistant.tsx:48-71 | an expense keyword and a positive amount give exactly that expense |
| Assistant.PlaceholderExample | src/components/ai/FinancialAssistant.tsx:44-72 | the input placeholder "صرفت ٥٠ جنيه على الطعام" is a food expense of 50 |
| Assistant.NonArabicNotUnderstood | src/components/ai/FinancialAssistant.tsx:48-51 | a sentence without Arabic letters is never understood |
| Assistant.EnglishSalaryNotUnderstood | src/components/ai/FinancialAssistant.tsx:48-51 | "received $1000 salary" is not understood |
| Assistant.Confirmation | src/components/ai/FinancialAssistant.tsx:133-135 | the confirmation opens with the announcement of the kind, shows the amount text right after it, and ends with the category |
| Assistant.AnnouncementsDiffer | src/components/ai/FinancialAssistant.tsx:133 | the announcements of an expense and of an income differ |
| Assistant.Reply | src/components/ai/FinancialAssistant.tsx:130-148 | at most one bot message with the reply id; none exactly when a transaction was found but not saved; the apology when nothing was found; the confirmation of the found transaction when it was saved |
| Assistant.FinancialAssistant.constructor | src/components/ai/FinancialAssistant.tsx:75-81 | the chat starts with the greeting, an empty input and no processing |
| Assistant.FinancialAssistant.SetInput | src/components/ai/FinancialAssistant.tsx:187 | the input becomes the typed text |
| Assistant.FinancialAssistant.Answer | src/components/ai/FinancialAssistant.tsx:127-149 | the analysed transaction is returned and the reply is appended to the messages |
| Assistant.FinancialAssistant.Submit | src/components/ai/FinancialAssistant.tsx:118-160 | a blank input changes nothing; otherwise the user's message and then the reply are appended, the input is cleared and processing ends |
| Overview.MonthNumber | src/components/charts/FinancialOverview.tsx:45 | the month of an ISO date is between 1 and 12 |
| Overview.MonthLabel | src/components/charts/FinancialOverview.tsx:45-46 | "Invalid Date" exactly when the date is not one of the ECMAScript date-time forms with a four-digit year (year, year-month or a day that exists, each optionally with a time); no label is a name inherited from `Object.prototype`, and none is made only of digits |
| Overview.LabelParts | src/components/charts/FinancialOverview.tsx:46 | a valid date's label is the short name of the month its digits give (January for a year alone), a space and the two-digit year |
| Overview.MarchLabel | src/components/charts/FinancialOverview.tsx:45-46 | "2024-03-15" is labelled "Mar 24" |
| Overview.ShortFormsLabelled | src/components/charts/FinancialOverview.tsx:45-46 | "2024" is labelled "Jan 24" and "2024-03T10:00" is labelled "Mar 24" |
| Overview.SameLabelIffSameMonth | src/components/charts/FinancialOverview.tsx:45-48 | two valid dates share a bar exactly when their year digits and month digits agree |
| Overview.InvalidDateNeverSharesBar | src/components/charts/FinancialOverview.tsx:45-48 | an unparseable date never lands on a real month's bar |
| Overview.FirstOccurrencesSound | src/components/charts/FinancialOverview.tsx:48-50 | the bar keys have no duplicates and are exactly the keys seen |
| Overview.PutValuesExisting | src/components/charts/FinancialOverview.tsx:53 | updating an existing key replaces its value in place |
| Overview.PutValuesNew | src/components/charts/FinancialOverview.tsx:48-50 | a new key is appended after the existing ones |
| Overview.NothingInUnseenMonth | src/components/charts/FinancialOverview.tsx:44-59 | a month no transaction falls in has no income and no expenses |
| Overview.BookMonthStep | src/components/charts/FinancialOverview.tsx:44-58 | one reducer step keeps every bar equal to its month's income and non-income totals |
| Overview.MonthFoldCorrect | src/components/charts/FinancialOverview.tsx:44-59 | after the whole reduce, the bars are the months in first-seen order, each with its totals |
| Overview.MonthlyTotals | src/components/charts/FinancialOverview.tsx:43-72 | no two bars share a month, and no bar's month is an inherited name |
| Overview.MonthlyTotalsCorrect | src/components/charts/FinancialOverview.tsx:44-72 | bar i has month i (first-seen order) and that month's income and expense sums |
| Overview.MonthlySums | src/components/charts/FinancialOverview.tsx:52-56 | the bars' income adds up to the income total and their expenses to the total of every other type |
| Overview.MonthlyConservation | src/components/charts/FinancialOverview.tsx:52-56 | every transaction's amount is counted once in the bars |
| Overview.NothingInUnseenCategory | src/components/charts/FinancialOverview.tsx:62-70 | a category that is not an inherited name and that no charted expense uses has nothing spent on it |
| Overview.BookCategoryKeys | src/components/charts/FinancialOverview.tsx:64-67 | one reducer step keeps the slice keys in first-seen order of the charted categories; an inherited name adds no key |
| Overview.BookCategoryStep | src/components/charts/FinancialOverview.tsx:64-69 | one reducer step keeps every slice equal to its category's spending |
| Overview.CategoryFoldCorrect | src/components/charts/FinancialOverview.tsx:62-70 | after the reduce over expenses, the slices are the categories other than inherited names in first-seen order, each with its spending |
| Overview.CategoryTotals | src/components/charts/FinancialOverview.tsx:60-73 | no two slices share a name, and no slice is named like an inherited member |
| Overview.CategoryTotalsCorrect | src/components/charts/FinancialOverview.tsx:61-73 | slice i has charted category i (first-seen order) and the sum of that category's expenses |
| Overview.IncomeNotInCategories | src/components/charts/FinancialOverview.tsx:63 | a transaction that is not an expense leaves the slices unchanged |
| Overview.BookCategorySum | src/components/charts/FinancialOverview.tsx:64-69 | one reducer step adds the amount to the slices' total, or nothing when the category is an inherited name without an own entry |
| Overview.CategorySum | src/components/charts/FinancialOverview.tsx:62-70 | the slices plus the expenses filed under inherited names add up to the total of all expenses |
| Overview.NothingHidden | src/components/charts/FinancialOverview.tsx:65 | when no category is an inherited name, no expense is hidden |
| Overview.NonIncomeIsExpense | src/components/charts/FinancialOverview.tsx:17-24 | when every type is income or expense, "not income" and "expense" agree |
| Overview.CategoriesMatchMonthlyExpenses | src/components/charts/FinancialOverview.tsx:52-70 | for well-typed data, the pie's total plus the hidden expenses equals the bars' expenses, and the two are equal when no category is an inherited name |
| Overview.OtherTypeOnlyInMonthly | src/components/charts/FinancialOverview.tsx:54-55 | a transaction of another type counts as a bar expense but is left out of the pie |
| Overview.InheritedCategoryDropped | src/components/charts/FinancialOverview.tsx:62-73 | an expense filed under "toString" is a bar expense but gets no slice |
| Overview.MonthCallback | src/components/charts/FinancialOverview.tsx:44-59 | the reducer callback books the transaction under its month label |
| Overview.BookUnder | src/components/charts/FinancialOverview.tsx:48-56 | the callback creates the bar when missing, then adds the amount to its income or expenses |
| Overview.CategoryCallback | src/components/charts/FinancialOverview.tsx:64-70 | the reducer callback creates a slice only when the category is neither an own entry nor an inherited name, and adds the amount only to an own entry |
| Overview.MonthlyReduce | src/components/charts/FinancialOverview.tsx:44-59 | the loop computes the monthly bars |
| Overview.CategoryReduce | src/components/charts/FinancialOverview.tsx:62-70 | the filter and loop compute the category slices, inherited names included |
| Overview.FinancialOverview.constructor | src/components/charts/FinancialOverview.tsx:29-30 | both charts start empty |
| Overview.FinancialOverview.CalculateData | src/components/charts/FinancialOverview.tsx:33-73 | nothing stored empties both charts; otherwise they become the monthly bars and the category slices of the stored transactions |
| Ledger.KindNamed | src/components/forms/TransactionForm.tsx:35 | a kind exactly for "income" and "expense", and its name is that text |
| TransactionForm.SchemaIssues | src/components/forms/TransactionForm.tsx:34-39 | each field's issue is reported exactly when that field fails, at most once each |
| TransactionForm.ParseForm | src/components/forms/TransactionForm.tsx:34-39 | accepted exactly when the type is income or expense and the three texts are non-empty; the entry copies the fields; otherwise the non-empty issue list |
| TransactionForm.ParseValuesOf | src/components/forms/TransactionForm.tsx:34-39 | an entry with non-empty texts passes the schema unchanged |
| TransactionForm.NonNumericAmountAccepted | src/components/forms/TransactionForm.tsx:36 | a non-numeric amount such as "abc" is accepted |
| TransactionForm.DefaultValues | src/components/forms/TransactionForm.tsx:64-69 | the initial data when given, else an expense with empty texts |
| TransactionForm.BlankFormRejected | src/components/forms/TransactionForm.tsx:34-39 | the blank form is rejected for amount, category and description, in that order |
| TransactionForm.ClearedAmountRejected | src/components/forms/TransactionForm.tsx:95-97 | after the calculator's "C" the form cannot be submitted |
| TransactionForm.TransactionDialog.constructor | src/components/forms/TransactionForm.tsx:57-70 | the dialog starts from the default values with empty calculator and AI text |
| TransactionForm.TransactionDialog.CalculatorInput | src/components/forms/TransactionForm.tsx:82-101 | "=" sets display and amount to the evaluation of the old display, or adds the error toast when it throws; "C" clears both; other keys are appended to the display |
| TransactionForm.TransactionDialog.AIProcess | src/components/forms/TransactionForm.tsx:103-135 | blank text only adds a toast; a failure adds the failure toast; an amount that cannot be printed leaves only the type set; a success fills all four fields and clears the text; processing ends |
| TransactionForm.TransactionDialog.AISuggestions | src/components/forms/TransactionForm.tsx:137-160 | nothing without initial data; otherwise the same fill-in with the suggestion toasts |
| TransactionForm.TransactionDialog.Submit | src/components/forms/TransactionForm.tsx:72-80 | invalid values change nothing; valid ones hand over the parsed entry, close the dialog, reset the form and add the added/updated toast |
| JsonValues.Lookup | supabase/functions/ai-finance/index.ts:22 | a property value exactly when a member with that key exists, and the value is that member's |
| JsonValues.LookupUnique | supabase/functions/ai-finance/index.ts:57 | in an object with unique keys, as `JSON.parse` builds, every member is what its key looks up |
| JsonValues.Has | supabase/functions/ai-finance/index.ts:61 | `in` is defined exactly on objects and arrays, and true exactly for an object's own keys |
| JsonValues.EscapeChar | supabase/functions/ai-finance/index.ts:69 | quote, backslash and control characters are escaped; every other character is written as is |
| JsonValues.IntText | supabase/functions/ai-finance/index.ts:69 | an integer's text starts with a minus sign exactly when it is negative, and otherwise with a digit |
| JsonValues.Stringify | supabase/functions/ai-finance/index.ts:69 | the first character tells the kind: a quote only for a string, a bracket only for an array, a brace only for an object, which end in the matching closing character |
| JsonValues.UnescapeEscaped | supabase/functions/ai-finance/index.ts:69 | reading an escaped string literal's body back gives the original string |
| Http.ErrorResponse | supabase/functions/analyze-transaction/index.ts:73-81 | the outer catch answers status 500 with the fault |
| AnalyzeTransactionFunction.CheckReply | supabase/functions/analyze-transaction/index.ts:58-63 | accepted exactly when the reply has the promised transaction shape; `null` fails on reading `transaction` |
| AnalyzeTransactionFunction.ParseReply | supabase/functions/analyze-transaction/index.ts:53-68 | any parse or validation failure becomes "Failed to parse transaction details" |
| AnalyzeTransactionFunction.Handle | supabase/functions/analyze-transaction/index.ts:9-83 | preflight answers "ok"; otherwise status 200 exactly when the body was read and the model's reply has the promised shape, and then the body is that reply; every other case is a 500 error |
| AnalyzeTransactionFunction.UnparseableLikeInvalid | supabase/functions/analyze-transaction/index.ts:65-68 | a reply that is not JSON and a reply of the wrong shape give the same error |
| AnalyzeTransactionFunction.ReplyWithAccepted | supabase/functions/analyze-transaction/index.ts:58-63 | with truthy category and description, a reply is accepted exactly when its type is income or expense and its amount is a number |
| AnalyzeTransactionFunction.AmountSignNotChecked | supabase/functions/analyze-transaction/index.ts:60 | zero and negative amounts are accepted; a numeric string or another type is rejected |
| AiFinanceFunction.Description | supabase/functions/ai-finance/index.ts:22 | "process" passes `data` through; "analyze" reads `text`, or `description` when `text` is falsy, and throws on a missing or null `data` |
| AiFinanceFunction.MissingAmong | supabase/functions/ai-finance/index.ts:61 | the kept keys are exactly the listed keys the value lacks |
| AiFinanceFunction.MissingAmongAppend | supabase/functions/ai-finance/index.ts:61 | the filter keeps the order of the key list |
| AiFinanceFunction.NothingMissing | supabase/functions/ai-finance/index.ts:61-63 | a value that has every key misses none |
| AiFinanceFunction.MissingFields | supabase/functions/ai-finance/index.ts:60-61 | `in` throws exactly when the reply is not an object or array; otherwise the missing required keys |
| AiFinanceFunction.ValidateReply | supabase/functions/ai-finance/index.ts:60-65 | accepted exactly when the reply is an object with all five keys; otherwise the error lists the missing keys |
| AiFinanceFunction.CheckReply | supabase/functions/ai-finance/index.ts:55-75 | accepted exactly when the reply parses and validates; every failure becomes "Invalid AI response format" |
| AiFinanceFunction.ResultIsEncodedReply | supabase/functions/ai-finance/index.ts:68-69 | `result` holds the reply's JSON text as a string literal that reads back to that text |
| AiFinanceFunction.MissingMessageReplaced | supabase/functions/ai-finance/index.ts:63-74 | a reply lacking only `analysis` builds the missing-fields message, and the caller sees "Invalid AI response format" |
| AiFinanceFunction.Handle | supabase/functions/ai-finance/index.ts:11-89 | preflight answers "ok"; otherwise status 200 exactly when the body was read, the action is known, the description was read and the reply validates, and then the body is the encoded reply; an unknown action gives "Invalid action" |
| AiFinanceFunction.UnknownActionRejected | supabase/functions/ai-finance/index.ts:21-78 | an action other than "analyze" or "process" fails with "Invalid action", whatever the model would reply |
| AiFinanceFunction.HandleAsWritten | supabase/functions/ai-finance/index.ts:1-18 | as written, every request with a readable, non-null body fails with a `ReferenceError` for `GoogleGenerativeAI` |
| AiFinanceFunction.AsWrittenAlwaysFails | supabase/functions/ai-finance/index.ts:18 | as written, every request except a preflight gets status 500 |
| AiFinanceFunction.MissingImportShows | supabase/functions/ai-finance/index.ts:18 | a "process" request with a complete reply fails as written and succeeds with the client in scope |

## Left out

- `Assistant.Normalize`: lower-casing in `analyzeTransaction` is not modelled. The model's keywords, digits and categories have no case, so `Normalize` only trims. A Latin capital letter in the text is therefore kept, which changes no keyword match, amount or category.
- `Overview.MonthLabel`: `toLocaleString('default', …)` depends on the runtime's locale and time zone. The label is the en-US short month name and two-digit year, read off the date as if the local time zone were UTC. The ECMAScript date-time forms with a four-digit year are recognised: `YYYY`, `YYYY-MM` and `YYYY-MM-DD`, each alone or followed by `THH:mm` (with optional `:ss`, `.sss` and `Z`), with the day checked against the month's length. Every other string is "Invalid Date". The label therefore differs from the runtime for an expanded year such as `+002024-03-01`, for a time-zone offset such as `+02:00`, for the hour `24`, for the non-standard formats the engine's fallback parser accepts, and for a day past the month's end, which some engines roll over into the next month.
- `Overview.CategoryTotalsCorrect`: `Object.values` lists the keys that are array indices first, in ascending numeric order, and then the others in insertion order. `CategoryTotals`, and so `Overview.FinancialOverview.CalculateData`, list every slice in first-seen order. The pie's slices are therefore in a different order when a category is named like `12` or `5`. The bars are unaffected: `MonthLabel` proves that no month label is made only of digits.
- `Overview.BookCategory`: for a category named like an `Object.prototype` member, the `+=` that lands on the inherited member is not modelled. It writes `NaN` onto the shared built-in, and for `__proto__` a `value` property onto `Object.prototype` that every later object inherits. The model keeps only what the charts show: no slice for that category.
- Amounts are real numbers, not floating point. Rounding in the sums is not modelled.
- A string amount in stored data would be concatenated by `+=`. This is not modelled: amounts are numbers.
- Local storage, `JSON.parse` of stored data, the `transactionsUpdated` event and the storage listener are left out. The parsed transactions (or their absence) are the input of `CalculateData`.
- Toast durations and the dialog's open flag are left out. The CORS headers and the content type of the responses are also left out.
- The database insert and its toasts in the assistant are left out. The insert's success is a parameter.
- `TransactionForm.IssueMessage`: the schema validator's own message for an invalid type is not modelled.
- The text of runtime `TypeError`s and of errors from `req.json()` or the model call is not modelled. They are kept as kinds of fault, or as a message passed in.
- `JsonValues.IntText`: JSON numbers are integers here, and `IntText` writes every digit, where `JSON.stringify` writes a magnitude of `1e21` or more in exponent form (`1e+21`). Fractions are not modelled either. `JSON.parse` itself is not modelled: its result, or its failure, is an input.
- The prompts are left out, and so are the model calls and the `GOOGLE_AI_KEY` lookup. What each call settles to is an input.
- The calculator's `eval` is left out. `CalculatorInput` takes it as a function from the display text to its printed result, or to nothing when it throws.
- `Assistant.FinancialAssistant.Submit`: the handler runs to completion in one step. Input typed, or a second message sent, while the insert is awaited is not modelled, and neither is React's batching of the state updates.
- `JsonValues.Has` answers for the handlers' keys only. For `length`, an array index or an `Object.prototype` member, `in` can be true where `Has` says false.
- `processTransactionText` and `suggestTransactionEdits` (`src/services/aiService.ts`) are not part of this model. What their promises settle to is an input.
- `TransactionForm.TransactionDialog.AIProcess`: `setValue` of a type, category or description that is `undefined` is not modelled. The outcome carries strings.
- `AiFinanceFunction.Handle`: constructing the model client is assumed not to throw.
- `JsonValues.Unescaped` rejects a `\u` escape of a surrogate, so surrogate pairs are not read back.
- The rendering of messages, charts and the dialog is left out. The assistant's number formatting is a parameter (`render`).

## Findings

| source | as written | input that shows it | evidently intended | confidence | as-written member | corrected member |
|---|---|---|---|---|---|---|
| supabase/functions/ai-finance/index.ts:18 | `new GoogleGenerativeAI(genAIKey)` with `GoogleGenerativeAI` never imported (lines 1-2 import only the XHR shim and `serve`), so every non-preflight request ends in a `ReferenceError` and status 500 | a POST with body `{"action":"process","data":"..."}` while the model would return all five required fields | the client is imported as in `analyze-transaction/index.ts:2`, and a valid request gets status 200 with `{ result }` | not executed | AiFinanceFunction.HandleAsWritten, AiFinanceFunction.MissingImportShows | AiFinanceFunction.Handle |
