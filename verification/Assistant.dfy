/** The heuristic Arabic transaction extractor (`analyzeTransaction`) and the
    chat component that feeds it (`FinancialAssistant`, its `handleSubmit`). */
module Assistant {
  import opened Wrappers
  import opened Strings
  import opened Ledger
  import opened Numerals

  /** Words that mark a spending (the alternation tested for `isExpense`). */
  const ExpenseKeywords: seq<string> := ["صرفت", "اشتريت", "دفعت", "انفقت", "خسرت", "مصروف", "مصاريف", "تكلفة"]

  /** Words that mark an income (the alternation tested for `isIncome`). */
  const IncomeKeywords: seq<string> := ["استلمت", "ربحت", "دخل", "راتب", "مكافأة", "ايراد", "حصلت على", "كسبت"]

  /** One row of the category table: the category and the words that select it. */
  datatype CategoryRule = CategoryRule(category: string, keywords: seq<string>)

  /** The category table, in the order the `if ... else if` chain tests it. */
  const CategoryRules: seq<CategoryRule> := [
      CategoryRule("طعام", ["طعام", "مطعم", "أكل", "وجبة"]),
      CategoryRule("مواصلات", ["مواصلات", "سيارة", "بنزين", "تاكسي"]),
      CategoryRule("راتب", ["راتب", "معاش"]),
      CategoryRule("تسوق", ["تسوق", "ملابس", "شراء"]),
      CategoryRule("صحة", ["صحة", "دواء", "طبيب"]),
      CategoryRule("ترفيه", ["ترفيه", "سينما", "رحلة"])
    ]

  /** The category given when no row matches. */
  const OtherCategory := "أخرى"

  /** What the extractor produces: a transaction without `id` and `date`. */
  datatype Extraction = Extraction(kind: Kind, amount: real, category: string, description: string)

  predicate RuleMatches(n: string, k: nat)
    requires k < |CategoryRules|
  {
    ContainsAny(n, CategoryRules[k].keywords)
  }

  /** Row `k` matches and no earlier row does. */
  predicate FirstMatchingRule(n: string, k: nat)
  {
    k < |CategoryRules| && RuleMatches(n, k) && forall j :: 0 <= j < k ==> !RuleMatches(n, j)
  }

  /** The category chain from row `i` on: the first matching row's category,
      or the default when none matches. */
  function CategoryFrom(n: string, i: nat): (r: string)
    requires i <= |CategoryRules|
    requires forall j :: 0 <= j < i ==> !RuleMatches(n, j)
    ensures r == OtherCategory <==> forall k :: i <= k < |CategoryRules| ==> !RuleMatches(n, k)
    ensures r != OtherCategory ==> exists k: nat :: FirstMatchingRule(n, k) && r == CategoryRules[k].category
    decreases |CategoryRules| - i
  {
    if i == |CategoryRules| then OtherCategory
    else if RuleMatches(n, i) then
      assert FirstMatchingRule(n, i);
      CategoryRules[i].category
    else CategoryFrom(n, i + 1)
  }

  /** The category `analyzeTransaction` assigns to the normalised text `n`:
      the first row of the table with a keyword in `n`, else the default. */
  function Categorize(n: string): (r: string)
    ensures r == OtherCategory <==> forall k :: 0 <= k < |CategoryRules| ==> !RuleMatches(n, k)
    ensures r != OtherCategory ==> exists k: nat :: FirstMatchingRule(n, k) && r == CategoryRules[k].category
  {
    CategoryFrom(n, 0)
  }

  /** The normalisation `text.trim().toLowerCase()`; lower-casing is left out
      (it changes no Arabic letter, digit or point). */
  function Normalize(text: string): (r: string)
    ensures r == [] <==> AllSpace(text)
    ensures r != [] ==> !IsSpace(r[0]) && !IsSpace(r[|r| - 1])
  {
    Trim(text)
  }

  /** `analyzeTransaction(text)`: `None` when the text has no direction
      keyword, or no number, or its largest number is 0. */
  function AnalyzeTransaction(text: string): (r: Option<Extraction>)
    ensures var n := Normalize(text);
      r.Some? <==> (ContainsAny(n, ExpenseKeywords) || ContainsAny(n, IncomeKeywords))
                   && exists v :: v > 0.0 && ExtractAmount(n) == Some(v)
    ensures r.Some? ==> var n := Normalize(text);
      && r.value.amount > 0.0
      && IsLargest(r.value.amount, Tokens(ToEnglishNumbers(n)))
      && (r.value.kind == Expense <==> ContainsAny(n, ExpenseKeywords))
      && (r.value.kind == Income <==> ContainsAny(n, IncomeKeywords) && !ContainsAny(n, ExpenseKeywords))
      && r.value.category == Categorize(n)
      && r.value.description == text
  {
    var n := Normalize(text);
    var isExpense := ContainsAny(n, ExpenseKeywords);
    var isIncome := ContainsAny(n, IncomeKeywords);
    if !isExpense && !isIncome then None
    else
      var amount := ExtractAmount(n);
      if amount.None? || amount.value == 0.0 then None
      else
        Some(Extraction(if isExpense then Expense else Income, amount.value, Categorize(n), text))
  }

  /** When both an expense and an income keyword occur, the result is an expense. */
  lemma ExpenseWins(text: string)
    requires ContainsAny(Normalize(text), ExpenseKeywords) && ContainsAny(Normalize(text), IncomeKeywords)
    requires AnalyzeTransaction(text).Some?
    ensures AnalyzeTransaction(text).value.kind == Expense
  {
  }

  /** A text with an expense keyword and a positive largest number is an
      expense of that amount. */
  lemma ExpenseExtraction(text: string, amount: real)
    requires ContainsAny(Normalize(text), ExpenseKeywords)
    requires ExtractAmount(Normalize(text)) == Some(amount) && amount > 0.0
    ensures AnalyzeTransaction(text) == Some(Extraction(Expense, amount, Categorize(Normalize(text)), text))
  {
  }

  /** The example transaction the input placeholder suggests. */
  const PlaceholderText := "صرفت ٥٠ جنيه على الطعام"

  lemma PlaceholderNormalized()
    ensures Normalize(PlaceholderText) == PlaceholderText
  {
    var text := PlaceholderText;
    assert LeadingSpaces(text) == 0 && TrailingSpaces(text) == 0;
    assert text[0..] == text;
  }

  lemma PlaceholderIsExpense()
    ensures ContainsAny(PlaceholderText, ExpenseKeywords)
  {
    assert StartsWith(PlaceholderText, "صرفت");
    assert Contains(PlaceholderText, ExpenseKeywords[0]);
  }

  lemma PlaceholderIsFood()
    ensures Categorize(PlaceholderText) == "طعام"
  {
    ContainsAt(PlaceholderText, "طعام", 19);
    assert RuleMatches(PlaceholderText, 0);
  }

  lemma PlaceholderAmount()
    ensures ExtractAmount(PlaceholderText) == Some(50.0)
  {
    assert PlaceholderText == "صرفت " + "٥٠" + " جنيه على الطعام";
    ArabicFiftyIsFifty("صرفت ", " جنيه على الطعام");
  }

  /** The example message shown in the input placeholder is understood as a
      food expense of 50, described by the message itself. */
  lemma {:induction false} PlaceholderExample()
    ensures AnalyzeTransaction(PlaceholderText) == Some(Extraction(Expense, 50.0, "طعام", PlaceholderText))
  {
    PlaceholderNormalized();
    PlaceholderIsExpense();
    PlaceholderIsFood();
    PlaceholderAmount();
    ExpenseExtraction(PlaceholderText, 50.0);
  }

  /** A character of the Arabic block U+0600..U+06FF. */
  predicate IsArabic(c: char)
  {
    '\U{0600}' <= c <= '\U{06FF}'
  }

  lemma DirectionKeywordsAreArabic()
    ensures forall k :: k in ExpenseKeywords ==> k != [] && IsArabic(k[0])
    ensures forall k :: k in IncomeKeywords ==> k != [] && IsArabic(k[0])
  {
  }

  /** A text without Arabic letters contains no word that starts with one. */
  lemma {:induction false} NoArabicNoWord(s: string, k: string)
    requires forall i :: 0 <= i < |s| ==> !IsArabic(s[i])
    requires k != [] && IsArabic(k[0])
    ensures !Contains(s, k)
  {
    if Contains(s, k) {
      ContainsFirstChar(s, k);
    }
  }

  /** Every direction keyword is Arabic, so a message without Arabic letters
      (such as an English one) is never understood. */
  lemma {:induction false} NonArabicNotUnderstood(text: string)
    requires forall i :: 0 <= i < |text| ==> !IsArabic(text[i])
    ensures AnalyzeTransaction(text) == None
  {
    var n := Normalize(text);
    forall i | 0 <= i < |n|
      ensures !IsArabic(n[i])
    {
      TrimKeepsChars(text, i);
    }
    DirectionKeywordsAreArabic();
    forall k | k in ExpenseKeywords || k in IncomeKeywords
      ensures !Contains(n, k)
    {
      NoArabicNoWord(n, k);
    }
  }

  /** "received $1000 salary" is not understood by this extractor. */
  lemma EnglishSalaryNotUnderstood()
    ensures AnalyzeTransaction("received $1000 salary") == None
  {
    NonArabicNotUnderstood("received $1000 salary");
  }

  /** A message in the chat log. */
  datatype Sender = User | Bot
  datatype Message = Message(id: string, text: string, sender: Sender)

  /** The first message of the log. */
  const Greeting := Message("1", "مرحباً! أنا مساعدك المالي. كيف يمكنني مساعدتك اليوم؟", Bot)

  /** The reply when the extractor returns `null`. */
  const NotUnderstood := "عذراً، لم أتمكن من فهم المعاملة. هل يمكنك إعادة صياغتها؟ مثال: صرفت ٥٠ جنيه على الطعام"

  /** The reply after a saved transaction; `amountText` is the amount as the
      runtime prints it. */
  function Confirmation(e: Extraction, amountText: string): (r: string)
    ensures |r| >= |Announcement(e.kind)| + |amountText| + |e.category|
    ensures r[..|Announcement(e.kind)|] == Announcement(e.kind)
    ensures r[|Announcement(e.kind)|..|Announcement(e.kind)| + |amountText|] == amountText
    ensures r[|r| - |e.category|..] == e.category
  {
    var head := Announcement(e.kind);
    var tail := " جنيه في فئة " + e.category;
    ShowsBoth(head, amountText, tail, e.category);
    head + amountText + tail
  }

  /** The words before the amount: "added an expense/income of". */
  function Announcement(kind: Kind): string
  {
    "تم إضافة " + (if kind == Expense then "مصروف" else "دخل") + " بقيمة "
  }

  /** The confirmation tells an expense from an income by its opening words. */
  lemma AnnouncementsDiffer()
    ensures Announcement(Expense) != Announcement(Income)
  {
    assert |Announcement(Expense)| != |Announcement(Income)|;
  }

  lemma ShowsBoth(head: string, middle: string, tail: string, last: string)
    requires |tail| >= |last| && tail[|tail| - |last|..] == last
    ensures var r := head + middle + tail;
      r[..|head|] == head && r[|head|..|head| + |middle|] == middle && r[|r| - |last|..] == last
  {
    var r := head + middle + tail;
    assert r[..|head|] == head;
    assert r[|r| - |last|..] == tail[|tail| - |last|..];
  }

  /** The assistant's reply, if any, to a submitted message: a confirmation
      when the transaction was understood and saved, nothing when it was
      understood but the insert failed, the fallback text when not understood. */
  function Reply(extracted: Option<Extraction>, saved: bool, id: string, render: real -> string): (r: seq<Message>)
    ensures |r| <= 1 && forall m :: m in r ==> m.sender == Bot && m.id == id
    ensures r == [] <==> extracted.Some? && !saved
    ensures extracted.None? ==> r == [Message(id, NotUnderstood, Bot)]
    ensures extracted.Some? && saved ==>
      r == [Message(id, Confirmation(extracted.value, render(extracted.value.amount)), Bot)]
  {
    match extracted
    case None => [Message(id, NotUnderstood, Bot)]
    case Some(e) => if saved then [Message(id, Confirmation(e, render(e.amount)), Bot)] else []
  }

  /** The chat component's state. */
  class FinancialAssistant {
    var messages: seq<Message>
    var input: string
    var isProcessing: bool

    constructor ()
      ensures messages == [Greeting] && input == "" && !isProcessing
    {
      messages := [Greeting];
      input := "";
      isProcessing := false;
    }

    /** The input box's `onChange`. */
    method SetInput(text: string)
      modifies this`input
      ensures input == text
    {
      input := text;
    }

    /** The part of `handleSubmit` after the user's message is logged: run
        the extractor, hand its result to the insert, and log the reply. */
    method Answer(text: string, replyId: string, saved: bool, render: real -> string) returns (inserted: Option<Extraction>)
      modifies this`messages
      ensures inserted == AnalyzeTransaction(text)
      ensures messages == old(messages) + Reply(inserted, saved, replyId, render)
    {
      inserted := None;
      var transaction := AnalyzeTransaction(text);
      if transaction.Some? {
        inserted := transaction;
        if saved {
          messages := messages + [Message(replyId, Confirmation(transaction.value, render(transaction.value.amount)), Bot)];
        }
      } else {
        messages := messages + [Message(replyId, NotUnderstood, Bot)];
      }
    }

    /** `handleSubmit`, run to completion. `userId` and `replyId` are the two
        clock readings that become message ids, `saved` is whether the
        database insert succeeded, `render` prints a number. Returns the
        transaction handed to the insert, if any. */
    method Submit(userId: string, replyId: string, saved: bool, render: real -> string) returns (inserted: Option<Extraction>)
      modifies this
      ensures Trim(old(input)) == [] ==>
        messages == old(messages) && input == old(input) && isProcessing == old(isProcessing) && inserted == None
      ensures Trim(old(input)) != [] ==>
        && inserted == AnalyzeTransaction(old(input))
        && messages == old(messages) + [Message(userId, old(input), User)] + Reply(inserted, saved, replyId, render)
        && input == ""
        && !isProcessing
    {
      inserted := None;
      if Trim(input) == [] {
        return;
      }
      var text := input;
      isProcessing := true;
      messages := messages + [Message(userId, text, User)];
      input := "";
      inserted := Answer(text, replyId, saved, render);
      isProcessing := false;
    }
  }
}
