/** The order-intake conversation: one `Conversation` per customer, holding
    the current state and the order collected so far. Each handler is a
    method; the state it leaves behind is the state the handler returns.
    Messages to the operator are recorded in a ghost log instead of being
    sent. */
module Flow {
  import opened Wrappers
  import opened Text
  import opened Pricing

  /** The conversation states; `End` is the end of the conversation, which is
      also where a customer is before the first /start. */
  datatype State =
    | TypeChoice
    | SendFile
    | ExplainChoice
    | DeadlineChoice
    | ExtraParams
    | ConfirmOrder
    | Payment
    | WaitingForReceipt
    | End

  /** What a customer can send. */
  datatype Event =
    | TextMessage(text: string)
    | Photo
    | Document
    | CallbackQuery(data: string)
    | SuccessfulPayment

  /** The per-customer order: every field is absent until its step sets it
      (`file` is present exactly when true). */
  datatype Order = Order(
    workType: Option<WorkType>,
    file: bool,
    explain: Option<bool>,
    days: Option<int>,
    extraCount: Option<int>)

  /** The order `/start` creates. */
  const NewOrder: Order := Order(None, false, None, None, None)

  /** What leaves the bot for the operator's chat or the payment provider. */
  datatype Outgoing =
    | Material(event: Event)                              // the task, forwarded as received
    | AdminNotice(order: Order, quote: Quote, paid: bool)  // the order summary with its price
    | Invoice(amountKopecks: int)                         // the invoice, in hundredths of a rouble
    | Receipt(event: Event)                               // the payment screenshot

  // ---------------------------------------------------------------------
  // Reading an order for the calculator

  /** The selection `calculate_price` reads: explanation defaults to no, days
      to 0 and the count to 1; a missing type is a lookup error (None). */
  function SelectionOf(o: Order): (r: Option<Selection>)
    ensures r.Some? <==> o.workType.Some?
    ensures r.Some? ==> r.value.workType == o.workType.value
    ensures r.Some? ==> (r.value.explain <==> o.explain == Some(true))
    ensures r.Some? ==> r.value.days == (if o.days.None? then 0 else o.days.value)
    ensures r.Some? ==> r.value.extraCount == (if o.extraCount.None? then 1 else o.extraCount.value)
  {
    match o.workType
    case None => None
    case Some(t) =>
      Some(Selection(t,
                     o.explain == Some(true),
                     if o.days.Some? then o.days.value else 0,
                     if o.extraCount.Some? then o.extraCount.value else 1))
  }

  /** The quote for an order, if it names a type. */
  function Price(o: Order): Option<Quote>
  {
    match SelectionOf(o)
    case None => None
    case Some(sel) => Some(CalculatePrice(sel))
  }

  /** An order without a day count is priced exactly as one with zero days,
      "+0" urgency line included. */
  lemma MissingDaysAsZero(o: Order)
    requires o.workType.Some?
    ensures Price(o.(days := None)) == Price(o.(days := Some(0)))
    ensures |Price(o.(days := None)).value.linesRub| == 1 + (if o.explain == Some(true) then 1 else 0) + 1
  {
  }

  // ---------------------------------------------------------------------
  // Reading the customer's replies

  /** The marker every cancel button starts with. */
  const CancelMark: string := "❌"
  /** The Russian caption of the cancel button. */
  const CancelCaption: string := "Отменить заказ"
  /** The cancel button shown under every keyboard. */
  const CancelButton: string := CancelMark + " " + CancelCaption + ChoiceSeparator + "Cancel order"

  /** Cancel test of the type step, applied to the parsed choice. */
  predicate IsCancelChoice(choice: string)
  {
    choice == CancelCaption || StartsWith(choice, CancelMark)
  }

  /** Cancel test of the later text steps, applied to the raw text. */
  predicate IsCancelText(text: string)
  {
    Contains(Lower(text), "отмен") || StartsWith(text, CancelMark)
  }

  /** The yes/no reply to the explanation question; "yes" wins when both occur. */
  function ExplainAnswer(text: string): (r: Option<bool>)
    ensures var a := Lower(Strip(text));
      && (r == Some(true) <==> Contains(a, "да") || Contains(a, "yes"))
      && (r == Some(false) <==> !(Contains(a, "да") || Contains(a, "yes")) && (Contains(a, "нет") || Contains(a, "no")))
      && (r.None? <==> !Contains(a, "да") && !Contains(a, "yes") && !Contains(a, "нет") && !Contains(a, "no"))
  {
    var answer := Lower(Strip(text));
    if Contains(answer, "да") || Contains(answer, "yes") then Some(true)
    else if Contains(answer, "нет") || Contains(answer, "no") then Some(false)
    else None
  }

  /** A day count or item count: an integer of at least 1, else rejected. */
  function PositiveInt(text: string): (r: Option<int>)
    ensures r.Some? ==> r.value >= 1 && ParseInt(Strip(text)) == r
    ensures r.None? ==> ParseInt(Strip(text)).None? || ParseInt(Strip(text)).value < 1
  {
    match ParseInt(Strip(text))
    case Some(n) => if n < 1 then None else Some(n)
    case None => None
  }

  /** Every positive number typed as digits is accepted as itself. */
  lemma PositiveIntShown(n: int)
    requires n >= 1
    ensures PositiveInt(ShowInt(n)) == Some(n)
  {
    ParseShowInt(n);
    var s := ShowNat(n);
    assert s[0] !in Whitespace && s[|s| - 1] !in Whitespace;
    StripTrimmed(s);
  }

  /** Zero, negative numbers and words are all rejected. */
  lemma PositiveIntRejects()
    ensures PositiveInt("0") == None && PositiveInt("-1") == None && PositiveInt("abc") == None
  {
    StripTrimmed("0");
    StripTrimmed("-1");
    StripTrimmed("abc");
  }

  /** A cancel word in any letter case, anywhere in the text, cancels. */
  lemma CancelWordAnyCase(text: string, word: string, i: int)
    requires OccursAt(text, word, i) && Lower(word) == "отмен"
    ensures IsCancelText(text)
  {
    LowerOccurs(text, word, i);
    ContainsIff(Lower(text), "отмен");
  }

  /** "Отмен" and "ОТМЕН" lower-case to the cancel word. */
  lemma CapitalisedCancelWords(title: string, upper: string)
    requires title == "Отмен" && upper == "ОТМЕН"
    ensures Lower(title) == "отмен" && Lower(upper) == "отмен"
  {
  }

  /** The keyboard button for a category: marker, Russian key, " / ", English caption. */
  function ChoiceButton(t: WorkType): string
  {
    [PrimaryMarker] + " " + Name(t) + ChoiceSeparator + EnglishName(t)
  }

  /** A caption pair `ParseChoiceTextOfButton` reads back as the Russian part. */
  predicate ButtonReady(ru: string, en: string)
  {
    && ru != [] && ru[0] !in Whitespace && ru[0] != PrimaryMarker && ru[0] !in SecondaryMarkerChars
    && NoSeparatorInside(ru)
    && en != [] && en[|en| - 1] !in Whitespace
  }

  lemma CatalogButtonsReady(t: WorkType)
    ensures ButtonReady(Name(t), EnglishName(t))
    ensures Name(t)[0] != CancelMark[0] && Name(t)[0] != CancelCaption[0]
  {
    NamesHoldNoSeparator(t);
  }

  lemma NamesHoldNoSeparator(t: WorkType)
    ensures NoSeparatorInside(Name(t))
  {
    match t
    case Task => assert NoSeparatorInside("Задание");
    case LabOrTest => assert NoSeparatorInside("Лабораторная/Контрольная");
    case ExamQuestion => assert NoSeparatorInside("Экзаменационный вопрос");
    case Practice => assert NoSeparatorInside("Практика");
    case Coursework => assert NoSeparatorInside("Курсовая");
    case Thesis => assert NoSeparatorInside("Дипломная");
    case CourseworkPresentation => assert NoSeparatorInside("Презентация для курсовой");
    case ThesisPresentation => assert NoSeparatorInside("Презентация для диплома");
  }

  /** No category key reads as a cancel request. */
  lemma NamesAreNotCancel(t: WorkType)
    ensures !IsCancelChoice(Name(t))
  {
    var ru := Name(t);
    CatalogButtonsReady(t);
    assert !StartsWith(ru, CancelMark) by {
      assert ru[..1][0] != CancelMark[0];
    }
    assert ru != CancelCaption by {
      assert ru[0] != CancelCaption[0];
    }
  }

  /** Pressing a category's button selects that category, never cancels. */
  lemma ChoiceButtonSelects(t: WorkType)
    ensures ParseChoiceText(ChoiceButton(t)) == Name(t)
    ensures !IsCancelChoice(ParseChoiceText(ChoiceButton(t)))
    ensures Lookup(ParseChoiceText(ChoiceButton(t))) == Some(t)
  {
    var ru, en := Name(t), EnglishName(t);
    assert ParseChoiceText(ChoiceButton(t)) == ru by {
      CatalogButtonsReady(t);
      assert ChoiceButton(t) == [PrimaryMarker, ' '] + ru + ChoiceSeparator + en;
      ParseChoiceTextOfButton([PrimaryMarker, ' '], ru, en);
    }
    NamesAreNotCancel(t);
    LookupName(t);
  }

  /** The cancel button cancels at every step that reads text. */
  lemma CancelButtonCancels()
    ensures IsCancelChoice(ParseChoiceText(CancelButton))
    ensures IsCancelText(CancelButton)
  {
    var ru := CancelMark + " " + CancelCaption;
    assert ButtonReady(ru, "Cancel order");
    assert CancelButton == [] + ru + ChoiceSeparator + "Cancel order";
    ParseChoiceTextOfButton([], ru, "Cancel order");
    assert ru[..1] == CancelMark;
    assert CancelButton[..1] == CancelMark;
  }

  /** The two answer buttons of the explanation question. */
  const YesButton: string := [PrimaryMarker] + " Да / Yes"
  const NoButton: string := SecondaryMarker + " Нет / No"

  lemma YesButtonLowered()
    ensures !StartsWith(YesButton, CancelMark)
    ensures Lower(Strip(YesButton)) == Lower(YesButton) == "\U{1F535} да / yes"
  {
    StripTrimmed(YesButton);
    assert YesButton == "\U{1F535} Да / Yes";
    assert YesButton[..1][0] == '\U{1F535}';
  }

  lemma NoButtonLowered()
    ensures !StartsWith(NoButton, CancelMark)
    ensures Lower(Strip(NoButton)) == Lower(NoButton) == "\U{26AA}\U{FE0F} нет / no"
  {
    StripTrimmed(NoButton);
    assert NoButton == "\U{26AA}\U{FE0F} Нет / No";
    assert NoButton[..1][0] == '\U{26AA}';
  }

  lemma YesButtonWords(answer: string)
    requires answer == "\U{1F535} да / yes"
    ensures Contains(answer, "да") && !Contains(answer, "отмен")
  {
    ContainsIff(answer, "да");
    assert OccursAt(answer, "да", 2);
    AbsentFirstChar(answer, "отмен");
  }

  /** The "yes" button answers yes and does not cancel. */
  lemma YesButtonAnswers()
    ensures ExplainAnswer(YesButton) == Some(true)
    ensures !IsCancelText(YesButton)
  {
    YesButtonLowered();
    YesButtonWords(Lower(YesButton));
  }

  lemma NoButtonWords(answer: string)
    requires answer == "\U{26AA}\U{FE0F} нет / no"
    ensures !Contains(answer, "да") && !Contains(answer, "yes") && Contains(answer, "нет")
    ensures !Contains(answer, "отмен")
  {
    AbsentFirstChar(answer, "да");
    AbsentFirstChar(answer, "yes");
    AbsentFirstChar(answer, "отмен");
    ContainsIff(answer, "нет");
    assert OccursAt(answer, "нет", 3);
  }

  /** The "no" button answers no and does not cancel. */
  lemma NoButtonAnswers()
    ensures ExplainAnswer(NoButton) == Some(false)
    ensures !IsCancelText(NoButton)
  {
    NoButtonLowered();
    NoButtonWords(Lower(NoButton));
  }

  // ---------------------------------------------------------------------
  // The conversation

  /** Every order field a state relies on is set, and nothing later is. */
  predicate Complete(o: Order)
  {
    && o.workType.Some? && o.file && o.explain.Some?
    && o.days.Some? && o.days.value >= 1
    && o.extraCount.Some? && o.extraCount.value >= 1
    && (!IsQuantityType(o.workType.value) ==> o.extraCount == Some(1))
  }

  predicate WellFormed(s: State, o: Option<Order>)
  {
    match s
    case End => o.None?
    case TypeChoice => o == Some(NewOrder)
    case SendFile =>
      o.Some? && o.value.workType.Some? && o.value == NewOrder.(workType := o.value.workType)
    case ExplainChoice =>
      o.Some? && o.value.workType.Some? && o.value == NewOrder.(workType := o.value.workType, file := true)
    case DeadlineChoice =>
      && o.Some? && o.value.workType.Some? && o.value.explain.Some?
      && o.value == NewOrder.(workType := o.value.workType, file := true, explain := o.value.explain)
    case ExtraParams =>
      && o.Some? && o.value.workType.Some? && IsQuantityType(o.value.workType.value)
      && o.value.file && o.value.explain.Some?
      && o.value.days.Some? && o.value.days.value >= 1 && o.value.extraCount.None?
    case ConfirmOrder => o.Some? && Complete(o.value)
    case Payment => o.Some? && Complete(o.value)
    case WaitingForReceipt => o.Some? && Complete(o.value)
  }

  predicate Quoting(s: State)
  {
    s == ConfirmOrder || s == Payment || s == WaitingForReceipt
  }

  /** The type is always chosen first: an order with any other field set has a type. */
  lemma TypeChosenFirst(s: State, o: Order)
    requires WellFormed(s, Some(o)) && o != NewOrder
    ensures o.workType.Some?
    ensures s != TypeChoice
  {
  }

  /** From confirmation on, the order can be priced, with a positive urgency
      day count and a count of at least one. */
  lemma CompleteOrderPriced(o: Order)
    requires Complete(o)
    ensures Price(o).Some?
    ensures var sel := SelectionOf(o).value; sel.days >= 1 && sel.extraCount >= 1
    ensures |Price(o).value.linesRub| == |Price(o).value.linesUsd| == 2 + (if o.explain == Some(true) then 1 else 0)
  {
  }

  /** Whether a message in the file step carries the task. */
  predicate IsMaterial(ev: Event)
  {
    ev.Document? || ev.Photo? || (ev.TextMessage? && ev.text != "")
  }

  class Conversation {
    var state: State
    var order: Option<Order>
    /** The quote shown at confirmation. */
    ghost var quoted: Option<Quote>
    /** Everything sent to the operator or the payment provider, in order. */
    ghost var sent: seq<Outgoing>

    ghost predicate Valid()
      reads this
    {
      && WellFormed(state, order)
      && (Quoting(state) ==> order.Some? && quoted == Price(order.value))
    }

    constructor ()
      ensures Valid() && state == End && order == None && sent == []
    {
      state := End;
      order := None;
      quoted := None;
      sent := [];
    }

    /** /start: a fresh empty order, then the category question. */
    method Start()
      modifies this
      ensures Valid() && state == TypeChoice && order == Some(NewOrder)
      ensures sent == old(sent) && quoted == old(quoted)
    {
      order := Some(NewOrder);
      state := TypeChoice;
    }

    /** /cancel, and every cancel reply: the order is dropped and the conversation ends. */
    method Cancel()
      modifies this
      ensures Valid() && state == End && order == None
      ensures sent == old(sent) && quoted == old(quoted)
    {
      order := None;
      state := End;
    }

    /** The category reply. */
    method OnTypeChoice(text: string)
      requires Valid() && state == TypeChoice
      modifies this
      ensures Valid() && sent == old(sent) && quoted == old(quoted)
      ensures var choice := ParseChoiceText(text);
        if IsCancelChoice(choice) then state == End && order == None
        else if Lookup(choice).Some? then
          state == SendFile && order == Some(old(order).value.(workType := Lookup(choice)))
        else state == TypeChoice && order == old(order)
    {
      var choice := ParseChoiceText(text);
      if IsCancelChoice(choice) {
        Cancel();
        return;
      }
      var t := Lookup(choice);
      if t.None? {
        return;
      }
      order := Some(order.value.(workType := t));
      state := SendFile;
    }

    /** The task itself, as a document, photo or text. `delivered` says
        whether forwarding it to the operator went through; when it fails
        the handler stops and nothing changes. */
    method OnSendFile(ev: Event, delivered: bool)
      requires Valid() && state == SendFile
      modifies this
      ensures Valid() && quoted == old(quoted)
      ensures ev.TextMessage? && ev.text != "" && IsCancelText(ev.text) ==>
        state == End && order == None && sent == old(sent)
      ensures IsMaterial(ev) && !(ev.TextMessage? && IsCancelText(ev.text)) ==>
        if delivered then
          state == ExplainChoice && order == Some(old(order).value.(file := true))
          && sent == old(sent) + [Material(ev)]
        else state == SendFile && order == old(order) && sent == old(sent)
      ensures !IsMaterial(ev) ==> state == SendFile && order == old(order) && sent == old(sent)
    {
      if ev.TextMessage? && ev.text != "" && IsCancelText(ev.text) {
        Cancel();
        return;
      }
      if !IsMaterial(ev) || !delivered {
        return;
      }
      sent := sent + [Material(ev)];
      order := Some(order.value.(file := true));
      state := ExplainChoice;
    }

    /** The yes/no reply about explanations. */
    method OnExplainChoice(text: string)
      requires Valid() && state == ExplainChoice
      modifies this
      ensures Valid() && sent == old(sent) && quoted == old(quoted)
      ensures IsCancelText(text) ==> state == End && order == None
      ensures !IsCancelText(text) ==>
        match ExplainAnswer(text)
        case Some(b) => state == DeadlineChoice && order == Some(old(order).value.(explain := Some(b)))
        case None => state == ExplainChoice && order == old(order)
    {
      if IsCancelText(text) {
        Cancel();
        return;
      }
      match ExplainAnswer(text)
      case None =>
      case Some(b) =>
        order := Some(order.value.(explain := Some(b)));
        state := DeadlineChoice;
    }

    /** The summary step: a missing count becomes 1 and the quote is shown. */
    method ShowConfirmation()
      requires order.Some? && order.value.workType.Some?
      modifies this
      ensures order == Some(if old(order).value.extraCount.None?
                            then old(order).value.(extraCount := Some(1))
                            else old(order).value)
      ensures state == ConfirmOrder && quoted == Price(order.value) && sent == old(sent)
    {
      if order.value.extraCount.None? {
        order := Some(order.value.(extraCount := Some(1)));
      }
      quoted := Price(order.value);
      state := ConfirmOrder;
    }

    /** The day count. Quantity categories go on to ask for the count; the
        others go straight to the summary with a count of 1. */
    method OnDeadlineChoice(text: string)
      requires Valid() && state == DeadlineChoice
      modifies this
      ensures Valid() && sent == old(sent)
      ensures IsCancelText(text) ==> state == End && order == None && quoted == old(quoted)
      ensures !IsCancelText(text) && PositiveInt(text).None? ==>
        state == DeadlineChoice && order == old(order) && quoted == old(quoted)
      ensures !IsCancelText(text) && PositiveInt(text).Some? ==>
        var dated := old(order).value.(days := PositiveInt(text));
        if IsQuantityType(dated.workType.value) then
          state == ExtraParams && order == Some(dated) && quoted == old(quoted)
        else
          state == ConfirmOrder && order == Some(dated.(extraCount := Some(1)))
          && quoted == Price(order.value)
    {
      if IsCancelText(text) {
        Cancel();
        return;
      }
      var days := PositiveInt(text);
      if days.None? {
        return;
      }
      order := Some(order.value.(days := days));
      if IsQuantityType(order.value.workType.value) {
        state := ExtraParams;
      } else {
        ShowConfirmation();
      }
    }

    /** The item count of a quantity category. */
    method OnExtraParams(text: string)
      requires Valid() && state == ExtraParams
      modifies this
      ensures Valid() && sent == old(sent)
      ensures IsCancelText(text) ==> state == End && order == None && quoted == old(quoted)
      ensures !IsCancelText(text) && PositiveInt(text).None? ==>
        state == ExtraParams && order == old(order) && quoted == old(quoted)
      ensures !IsCancelText(text) && PositiveInt(text).Some? ==>
        state == ConfirmOrder && order == Some(old(order).value.(extraCount := PositiveInt(text)))
        && quoted == Price(order.value)
    {
      if IsCancelText(text) {
        Cancel();
        return;
      }
      var count := PositiveInt(text);
      if count.None? {
        return;
      }
      order := Some(order.value.(extraCount := count));
      ShowConfirmation();
    }

    /** The summary's buttons. "cancel" drops the order; any other button
        notifies the operator of the unpaid order, then issues an invoice
        when a payment provider is configured and the invoice goes out,
        and otherwise asks for a bank transfer and its screenshot. */
    method OnConfirm(data: string, providerConfigured: bool, invoiceSent: bool)
      requires Valid() && state == ConfirmOrder
      modifies this
      ensures Valid() && quoted == old(quoted)
      ensures data == "cancel" ==> state == End && order == None && sent == old(sent)
      ensures data != "cancel" ==>
        && order == old(order)
        && old(quoted).Some?
        && var quote := old(quoted).value;
        && state == (if providerConfigured && invoiceSent then Payment else WaitingForReceipt)
        && sent == old(sent) + [AdminNotice(old(order).value, quote, false)]
                  + (if providerConfigured && invoiceSent then [Invoice(quote.totalRub * 100)] else [])
    {
      if data == "cancel" {
        Cancel();
        return;
      }
      var quote := Price(order.value).value;
      sent := sent + [AdminNotice(order.value, quote, false)];
      if providerConfigured && invoiceSent {
        sent := sent + [Invoice(quote.totalRub * 100)];
        state := Payment;
        return;
      }
      state := WaitingForReceipt;
    }

    /** The provider reports the payment: the operator is told the order is
        paid, with the quote the customer confirmed, and the conversation ends. */
    method OnSuccessfulPayment()
      requires Valid() && state == Payment
      modifies this
      ensures Valid() && state == End && order == None && quoted == old(quoted)
      ensures old(quoted).Some?
      ensures sent == old(sent) + [AdminNotice(old(order).value, old(quoted).value, true)]
    {
      var quote := Price(order.value).value;
      sent := sent + [AdminNotice(order.value, quote, true)];
      order := None;
      state := End;
    }

    /** The bank-transfer screenshot. A photo or document ends the
        conversation whether or not forwarding it succeeds (`forwarded`);
        only a forwarded one is followed by the paid-order notice. Anything
        else is answered with a reminder. */
    method OnReceipt(ev: Event, forwarded: bool)
      requires Valid() && state == WaitingForReceipt
      modifies this
      ensures Valid() && quoted == old(quoted)
      ensures (ev.Photo? || ev.Document?) ==>
        && state == End && order == None && old(quoted).Some?
        && sent == old(sent) + (if forwarded then [Receipt(ev), AdminNotice(old(order).value, old(quoted).value, true)] else [])
      ensures !(ev.Photo? || ev.Document?) ==> state == WaitingForReceipt && order == old(order) && sent == old(sent)
    {
      if !(ev.Photo? || ev.Document?) {
        return;
      }
      if forwarded {
        sent := sent + [Receipt(ev)];
        if order.Some? && order.value != NewOrder {
          match Price(order.value)
          case Some(quote) =>
            sent := sent + [AdminNotice(order.value, quote, true)];
          case None =>
        }
      }
      order := None;
      state := End;
    }
  }
}
