/** The add/edit transaction dialog (`TransactionForm`): the field schema, the
    default values, the calculator keypad and the two AI fill-in handlers. */
module TransactionForm {
  import opened Wrappers
  import opened Strings
  import opened Ledger

  // ---------------------------------------------------------------------------
  // The field schema

  /** The four form fields as the form holds them. */
  datatype FormValues = FormValues(kind: string, amount: string, category: string, description: string)

  /** A transaction the schema accepted; the amount stays a string. */
  datatype Entry = Entry(kind: Kind, amount: string, category: string, description: string)

  /** The field errors the schema can report, in field order. */
  datatype SchemaIssue = InvalidType | AmountRequired | CategoryRequired | DescriptionRequired

  /** The messages declared for the three `min(1, ...)` checks; the enum
      check uses the validator's built-in message. */
  function IssueMessage(issue: SchemaIssue): Option<string>
  {
    match issue
    case InvalidType => None
    case AmountRequired => Some("Amount is required")
    case CategoryRequired => Some("Category is required")
    case DescriptionRequired => Some("Description is required")
  }

  /** The issues of each field, in the order the fields are declared. */
  function SchemaIssues(v: FormValues): (r: seq<SchemaIssue>)
    ensures InvalidType in r <==> KindNamed(v.kind).None?
    ensures AmountRequired in r <==> v.amount == ""
    ensures CategoryRequired in r <==> v.category == ""
    ensures DescriptionRequired in r <==> v.description == ""
    ensures forall i, j :: 0 <= i < j < |r| ==> r[i] != r[j]
  {
    (if KindNamed(v.kind).None? then [InvalidType] else [])
    + (if v.amount == "" then [AmountRequired] else [])
    + (if v.category == "" then [CategoryRequired] else [])
    + (if v.description == "" then [DescriptionRequired] else [])
  }

  /** `transactionSchema.safeParse`: the entry, or every field issue. The
      amount is only required to be non-empty, not to be numeric. */
  function ParseForm(v: FormValues): (r: Result<Entry, seq<SchemaIssue>>)
    ensures r.Success? <==>
      (v.kind == "income" || v.kind == "expense") && v.amount != "" && v.category != "" && v.description != ""
    ensures r.Success? ==>
      r.value.kind.Name() == v.kind && r.value.amount == v.amount
      && r.value.category == v.category && r.value.description == v.description
    ensures r.Failure? ==> r.error == SchemaIssues(v) && r.error != []
  {
    var issues := SchemaIssues(v);
    if issues == [] then Success(Entry(KindNamed(v.kind).value, v.amount, v.category, v.description))
    else Failure(issues)
  }

  /** The form values an entry fills in. */
  function ValuesOf(e: Entry): FormValues
  {
    FormValues(e.kind.Name(), e.amount, e.category, e.description)
  }

  /** Every entry with non-empty text fields passes the schema unchanged. */
  lemma ParseValuesOf(e: Entry)
    requires e.amount != "" && e.category != "" && e.description != ""
    ensures ParseForm(ValuesOf(e)) == Success(e)
  {
  }

  /** An amount need not be a number: "abc" passes. */
  lemma NonNumericAmountAccepted()
    ensures ParseForm(FormValues("expense", "abc", "Food", "x")).Success?
  {
  }

  /** The values the form starts from and `reset` returns to: `initialData`
      when given, otherwise an expense with empty text fields. */
  function DefaultValues(initialData: Option<FormValues>): (r: FormValues)
    ensures initialData.Some? ==> r == initialData.value
    ensures initialData.None? ==> r.kind == "expense" && r.amount == "" && r.category == "" && r.description == ""
  {
    if initialData.Some? then initialData.value else FormValues("expense", "", "", "")
  }

  /** The blank form cannot be submitted: its three text fields are reported
      missing, and its type is valid. */
  lemma BlankFormRejected()
    ensures ParseForm(DefaultValues(None)) == Failure([AmountRequired, CategoryRequired, DescriptionRequired])
  {
    var v := DefaultValues(None);
    assert KindNamed(v.kind).Some?;
    var issues := [AmountRequired, CategoryRequired, DescriptionRequired];
    assert SchemaIssues(v) == [] + [AmountRequired] + [CategoryRequired] + [DescriptionRequired] == issues;
  }

  // ---------------------------------------------------------------------------
  // The dialog's state

  /** A toast: its title, its description line if any, and whether it uses
      the destructive variant. */
  datatype Toast = Toast(title: string, description: Option<string>, destructive: bool)

  const InvalidCalculation := Toast("Invalid calculation", None, true)
  const EmptyDescription := Toast("Please enter a description of your transaction", None, true)
  const Extracted := Toast("Transaction details extracted successfully!", None, false)
  const ExtractionFailed := Toast("Failed to process transaction text", Some("Please try again with a clearer description"), true)
  const SuggestionsApplied := Toast("AI suggestions applied!", None, false)
  const SuggestionsFailed := Toast("Failed to get AI suggestions", None, true)

  /** The toast after a submitted form. */
  function SubmittedToast(editing: bool): Toast
  {
    Toast(if editing then "Transaction updated successfully!" else "Transaction added successfully!", None, false)
  }

  /** What an AI helper's promise settled to: it rejected (no key, a failed
      model call, a reply that is not JSON, or `null`), or it resolved to an
      object whose `amount.toString()` is `amountText` (`None` when the
      amount is `undefined` or `null`, so the call throws). */
  datatype AiOutcome =
    | Rejected
    | Resolved(kind: string, amountText: Option<string>, category: string, description: string)

  /** The form values after the four `setValue` calls of a resolved outcome
      whose amount prints. */
  function Filled(o: AiOutcome): FormValues
    requires o.Resolved? && o.amountText.Some?
  {
    FormValues(o.kind, o.amountText.value, o.category, o.description)
  }

  class TransactionDialog {
    /** The `initialData` prop: present when an existing transaction is edited. */
    const initialData: Option<FormValues>
    var values: FormValues
    var calculatorValue: string
    var aiText: string
    var isProcessing: bool
    var toasts: seq<Toast>

    constructor (initialData: Option<FormValues>)
      ensures this.initialData == initialData && values == DefaultValues(initialData)
      ensures calculatorValue == "" && aiText == "" && !isProcessing && toasts == []
    {
      this.initialData := initialData;
      values := DefaultValues(initialData);
      calculatorValue := "";
      aiText := "";
      isProcessing := false;
      toasts := [];
    }

    /** `handleCalculatorInput(key)`. `evaluate` stands for
        `eval(calculatorValue).toString()`: the printed result, or `None`
        when evaluating or printing throws. */
    method CalculatorInput(key: string, evaluate: string -> Option<string>)
      modifies this`calculatorValue, this`values, this`toasts
      ensures key == "=" && evaluate(old(calculatorValue)).Some? ==>
        && calculatorValue == evaluate(old(calculatorValue)).value
        && values == old(values).(amount := evaluate(old(calculatorValue)).value) && toasts == old(toasts)
      ensures key == "=" && evaluate(old(calculatorValue)).None? ==>
        calculatorValue == old(calculatorValue) && values == old(values) && toasts == old(toasts) + [InvalidCalculation]
      ensures key == "C" ==> calculatorValue == "" && values == old(values).(amount := "") && toasts == old(toasts)
      ensures key != "=" && key != "C" ==>
        calculatorValue == old(calculatorValue) + key && values == old(values) && toasts == old(toasts)
    {
      if key == "=" {
        match evaluate(calculatorValue)
        case Some(result) =>
          calculatorValue := result;
          values := values.(amount := result);
        case None =>
          toasts := toasts + [InvalidCalculation];
      } else if key == "C" {
        calculatorValue := "";
        values := values.(amount := "");
      } else {
        calculatorValue := calculatorValue + key;
      }
    }

    /** `handleAIProcess`, run to completion with `outcome` as the result of
        `processTransactionText(aiText)`. A reply without an amount has
        already set the type when `toString` throws. */
    method AIProcess(outcome: AiOutcome)
      modifies this`values, this`aiText, this`isProcessing, this`toasts
      ensures Trim(old(aiText)) == [] ==>
        values == old(values) && aiText == old(aiText) && isProcessing == old(isProcessing)
        && toasts == old(toasts) + [EmptyDescription]
      ensures Trim(old(aiText)) != [] ==> !isProcessing
      ensures Trim(old(aiText)) != [] && outcome.Rejected? ==>
        values == old(values) && aiText == old(aiText) && toasts == old(toasts) + [ExtractionFailed]
      ensures Trim(old(aiText)) != [] && outcome.Resolved? && outcome.amountText.None? ==>
        values == old(values).(kind := outcome.kind) && aiText == old(aiText) && toasts == old(toasts) + [ExtractionFailed]
      ensures Trim(old(aiText)) != [] && outcome.Resolved? && outcome.amountText.Some? ==>
        values == Filled(outcome) && aiText == "" && toasts == old(toasts) + [Extracted]
    {
      if Trim(aiText) == [] {
        toasts := toasts + [EmptyDescription];
        return;
      }
      isProcessing := true;
      match outcome {
      case Rejected =>
        toasts := toasts + [ExtractionFailed];
      case Resolved(kind, amountText, category, description) =>
        values := values.(kind := kind);
        if amountText.None? {
          toasts := toasts + [ExtractionFailed];
        } else {
          values := values.(amount := amountText.value);
          values := values.(category := category);
          values := values.(description := description);
          aiText := "";
          toasts := toasts + [Extracted];
        }
      }
      isProcessing := false;
    }

    /** `handleAISuggestions`, run to completion with `outcome` as the result
        of `suggestTransactionEdits(initialData)`. */
    method AISuggestions(outcome: AiOutcome)
      modifies this`values, this`isProcessing, this`toasts
      ensures initialData.None? ==>
        values == old(values) && isProcessing == old(isProcessing) && toasts == old(toasts)
      ensures initialData.Some? ==> !isProcessing
      ensures initialData.Some? && outcome.Rejected? ==>
        values == old(values) && toasts == old(toasts) + [SuggestionsFailed]
      ensures initialData.Some? && outcome.Resolved? && outcome.amountText.None? ==>
        values == old(values).(kind := outcome.kind) && toasts == old(toasts) + [SuggestionsFailed]
      ensures initialData.Some? && outcome.Resolved? && outcome.amountText.Some? ==>
        values == Filled(outcome) && toasts == old(toasts) + [SuggestionsApplied]
    {
      if initialData.None? {
        return;
      }
      isProcessing := true;
      match outcome {
      case Rejected =>
        toasts := toasts + [SuggestionsFailed];
      case Resolved(kind, amountText, category, description) =>
        values := values.(kind := kind);
        if amountText.None? {
          toasts := toasts + [SuggestionsFailed];
        } else {
          values := values.(amount := amountText.value);
          values := values.(category := category);
          values := values.(description := description);
          toasts := toasts + [SuggestionsApplied];
        }
      }
      isProcessing := false;
    }

    /** The form's submit: the schema runs first, and `handleSubmit` only on
        values it accepts. Returns the entry handed to `onSubmit`, and
        whether `onOpenChange(false)` was called. */
    method Submit() returns (submitted: Option<Entry>, closed: bool)
      modifies this`values, this`toasts
      ensures ParseForm(old(values)).Failure? ==>
        submitted == None && !closed && values == old(values) && toasts == old(toasts)
      ensures ParseForm(old(values)).Success? ==>
        && submitted == Some(ParseForm(old(values)).value) && closed
        && values == DefaultValues(initialData)
        && toasts == old(toasts) + [SubmittedToast(initialData.Some?)]
    {
      match ParseForm(values)
      case Failure(_) =>
        submitted, closed := None, false;
      case Success(entry) =>
        submitted := Some(entry);
        values := DefaultValues(initialData);
        closed := true;
        toasts := toasts + [SubmittedToast(initialData.Some?)];
    }
  }

  /** After "C" the form cannot be submitted until an amount is entered. */
  lemma ClearedAmountRejected(v: FormValues)
    ensures ParseForm(v.(amount := "")).Failure?
    ensures AmountRequired in ParseForm(v.(amount := "")).error
  {
  }
}
