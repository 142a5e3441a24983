# Order intake and pricing of a homework-help Telegram bot

The bot sells solved assignments. A customer picks a category of work and
sends the task as a document, photo or text. The bot then asks whether
step-by-step explanations are wanted, how many days until the deadline, and,
for the three per-item categories, how many items there are. It then shows a
price breakdown in roubles and dollars. On confirmation the operator is told
about the order. The customer either pays a Telegram invoice or pays by bank
transfer and sends a screenshot of the receipt.

The model has three modules:

- `Pricing` (`pricing.dfy`): the price tables and `calculate_price`. The
  calculator is written as staged pure functions (base line, explanation
  line, urgency line) over a `Quote`. It holds the rouble and dollar line
  items and both totals, and it is always *balanced*: each total is the sum
  of its lines.
- `Text` (`text.dfy`): the string operations the handlers rely on. These are
  Python's `strip`/`lstrip`, `lower`, `in`, `startswith`, `split(...)[0]`,
  `int(...)` and the integer formatting of `format_price_rub_usd`. It also
  holds `parse_choice_text`, which reads a keyboard button back as its
  category key.
- `Flow` (`flow.dfy`): the conversation. A `Conversation` object holds the
  current state and the order collected so far, and has one method per
  handler. Each method's postcondition gives the state the handler returns
  and the order it leaves behind. Messages to the operator and invoices go
  into a ghost log `sent`, so the contracts can say what is sent and in which
  order. The class invariant `Valid` says:
  - the type is always chosen first;
  - from confirmation on, the order is complete;
  - the quote shown at confirmation equals the price of the current order.

  Because of the last point, the quote that the operator's paid-order notice
  recomputes is the quote the customer confirmed.

## Model

| member | source | states |
|---|---|---|
| Pricing.Lookup | main.py:59-68 | A category key is found only when it is exactly one of the eight catalogue names. |
| Pricing.LookupName | main.py:59-68 | Every catalogue name is found as its own category. |
| Pricing.CalculatePrice | main.py:102-174 | The totals are the sums of the line items in each currency. There is one base line, one explanation line when asked for, and one urgency line when the day count is not negative. |
| Pricing.LeadingLines | main.py:113-136 | The first line in each currency is the base line: unit price × count, labelled with both, for assignments, lab/quiz and exam questions, and the flat price for the others. With explanations, the second line is the category's surcharge in roubles and its conversion in dollars. |
| Pricing.PriceTotals | main.py:108-160 | The rouble total is base + explanation surcharge + urgency surcharge. The dollar total is the dollar base plus each surcharge converted at 90 roubles per dollar. |
| Pricing.QuantityScaling | main.py:113-120 | For assignments, lab/quiz and exam questions, the base line is the unit price times the count in both currencies, n times the one-item line. Each extra item adds exactly one unit price to each total. |
| Pricing.CountIgnored | main.py:121-128 | For every other category, the item count does not affect the quote. |
| Pricing.UrgencyLine | main.py:138-167 | Negative days give no urgency line in either currency. Otherwise the urgency line is the last line in both lists, labelled with the day count (unlabelled for 0), and carries the urgency charged and its dollar conversion. |
| Pricing.NoDaysNoUrgency | main.py:138-167 | With zero or negative days, nothing is charged for urgency. |
| Pricing.UrgencyNonIncreasing | main.py:138-154 | The urgency surcharge is never negative and never grows as the deadline moves further away. |
| Pricing.LinearUrgency | main.py:140-147 | The linear tiers: start values 1500/2000/4000/6000 minus 100/200/250/250 per extra day, floored at zero. |
| Pricing.CappedUrgency | main.py:148-152 | Thesis and thesis presentation: max(2·base − 250·(days−1), base) − base. It lies between 0 and the base, so base plus urgency is at most twice the base. For next-day delivery it equals the base. |
| Pricing.UrgencyVanishes | main.py:139-154 | The surcharge is zero exactly from a category's threshold day onwards: 16, 16, 11, 17, 25, 25, 105, 21. |
| Pricing.ToUsd | main.py:132 | Python's round(x/90): the result is within half a dollar of x/90, and a tie goes to the even number. |
| Pricing.ToUsdNoTie | main.py:155 | Away from ties, the conversion is ordinary rounding, (x + 45) / 90. |
| Pricing.ConvertedAmountsNeverTie | main.py:130-155 | No explanation surcharge and no urgency surcharge the calculator converts is ever a tie. The rounding rule therefore never matters. |
| Pricing.TwoTasksTomorrow | main.py:102-174 | Two assignments with explanations, due in one day: three lines, 5097 ₽ and $60. |
| Pricing.ThesisTomorrow | main.py:148-160 | A thesis due in one day: the urgency line equals the base price, 51998 ₽ and $588. |
| Text.LStripSpec | main.py:186 | lstrip removes exactly a prefix of characters from the set, and stops at the first character outside it. |
| Text.RStripSpec | main.py:186 | rstrip removes exactly a suffix of characters from the set, and stops at the last character outside it. |
| Text.StripTrimmed | main.py:186 | strip leaves a string unchanged when its ends are not whitespace. |
| Text.LowerChar | main.py:398 | lower maps each upper-case Latin or Russian letter to its lower-case letter (code point + 32, and Ё to ё) and leaves every other character unchanged. |
| Text.LowerOccurs | main.py:398 | Lower-casing a text turns each occurrence of a word into an occurrence of the lower-cased word, at the same place. |
| Text.ContainsIff | main.py:187 | p in s holds exactly when p occurs at some index of s. |
| Text.AbsentFirstChar | main.py:398 | A text lacking the first letter of a word does not contain the word. |
| Text.FirstField | main.py:187-188 | split(sep)[0] is a prefix holding no separator, followed by the separator unless it is the whole text. |
| Text.FirstFieldAt | main.py:188 | When the separator occurs right after a prefix that holds none itself, split(sep)[0] is that prefix. |
| Text.ParseInt | main.py:436 | int() accepts exactly a non-empty digit string, or a + or - followed by one. The value is the decimal value of the digits, negated after a minus. |
| Text.LeadingZero | main.py:436 | Leading zeros do not change the value of a digit string. |
| Text.ParseIntExamples | main.py:436 | "007" reads as 7 and "+3" as 3; a bare "-" is rejected. |
| Text.ParseShowInt | main.py:99-100 | int() reads back every integer as it is printed. |
| Text.FormatPriceInjective | main.py:99-100 | format_price_rub_usd never prints two different price pairs the same way. The helper has no caller in main.py. |
| Text.ParseChoiceTextOfButton | main.py:180-189 | A button made of an optional marker, a caption without " / ", the separator and a translation is read back as that caption. |
| Flow.SelectionOf | main.py:103-106 | An order is priced exactly when it has a type. The selection carries that type; explanation is on exactly when the flag is set to yes; missing days count as 0 and a missing count as 1, present values are taken as they are. |
| Flow.MissingDaysAsZero | main.py:105 | An order without a day count gets the same quote as one with 0 days, "+0" urgency line included. |
| Flow.ExplainAnswer | main.py:418-427 | On the stripped, lower-cased reply: yes exactly when it contains "да" or "yes"; no exactly when it contains neither but contains "нет" or "no"; rejected exactly when it contains none of the four. |
| Flow.CancelWordAnyCase | main.py:398 | A text holding a word that lower-cases to "отмен", anywhere and in any letter case, is a cancel reply. |
| Flow.CapitalisedCancelWords | main.py:398 | "Отмен" and "ОТМЕН" lower-case to "отмен". |
| Flow.PositiveInt | main.py:436-441 | A day or item count is accepted exactly when int() parses the stripped text to a value of at least 1. |
| Flow.PositiveIntShown | main.py:436-441 | Every positive number typed in digits is accepted as itself. |
| Flow.PositiveIntRejects | main.py:436-441 | "0", "-1" and "abc" are rejected. |
| Flow.ChoiceButtonSelects | main.py:176-189 | Pressing a category's button selects that category and is never read as a cancel. |
| Flow.NamesAreNotCancel | main.py:364 | No catalogue name passes the type step's cancel test. |
| Flow.CancelButtonCancels | main.py:182 | The cancel button cancels both at the type step and at the text steps. |
| Flow.YesButtonAnswers | main.py:408-420 | The "Да / Yes" button answers yes and does not cancel. |
| Flow.NoButtonAnswers | main.py:408-423 | The "Нет / No" button answers no and does not cancel. |
| Flow.TypeChosenFirst | main.py:362-378 | In every state, an order with any field set already has its type. |
| Flow.CompleteOrderPriced | main.py:465-470 | From confirmation on, the order can be priced. It has days ≥ 1 and a count ≥ 1, and two or three lines per currency. |
| Flow.Conversation.constructor | main.py:48-57 | A conversation begins outside the flow, with no order and nothing sent. |
| Flow.Conversation.Start | main.py:349-355 | /start, from any state: a fresh empty order, then the category question. |
| Flow.Conversation.Cancel | main.py:357-360 | The order is dropped and the conversation ends. |
| Flow.Conversation.OnTypeChoice | main.py:362-378 | Cancel ends the conversation. A catalogue name records the type and moves on to the task. Anything else stays in place with the order unchanged. |
| Flow.Conversation.OnSendFile | main.py:380-413 | A cancel text ends the conversation. A document, photo or text is forwarded to the operator, the file flag is set and the bot asks about explanations; if forwarding fails, nothing changes. Anything else is re-prompted. |
| Flow.Conversation.OnExplainChoice | main.py:415-430 | A cancel text ends the conversation. A yes/no answer is recorded and the bot asks for the deadline. Anything else is re-prompted. |
| Flow.Conversation.ShowConfirmation | main.py:465-496 | A missing count becomes 1, and the shown quote is the price of the resulting order. |
| Flow.Conversation.OnDeadlineChoice | main.py:432-449 | A cancel text ends the conversation. A positive day count is recorded; it leads to the count question for per-item categories and to the priced summary otherwise. Anything else is re-prompted. |
| Flow.Conversation.OnExtraParams | main.py:451-463 | A cancel text ends the conversation. A positive count is recorded and the priced summary is shown. Anything else is re-prompted. |
| Flow.Conversation.OnConfirm | main.py:498-534 | "cancel" drops the order. Any other button sends the unpaid-order notice with the confirmed quote. The invoice for the rouble total in kopecks follows when a provider is configured and the invoice goes out; otherwise the bot waits for a receipt. |
| Flow.Conversation.OnSuccessfulPayment | main.py:539-549 | The paid-order notice carries the quote the customer confirmed, and the conversation ends. |
| Flow.Conversation.OnReceipt | main.py:551-577 | A photo or document ends the conversation. When forwarding succeeds, the receipt is followed by the paid-order notice with the confirmed quote. Anything else is re-prompted. |

## Left out

- Telegram I/O: replies, keyboards, HTML rendering, the text of the
  greeting and prompts, and the wording of the operator's notice. The
  notice is modelled as `AdminNotice(order, quote, paid)` in a ghost log.
- The framework's dispatch in `main()` (main.py:615-660). Each handler's
  return value is taken as the new state. The `ConversationHandler`
  semantics, webhook/polling start-up and environment configuration are not
  modelled. As registered, the conversation has no entry points
  (main.py:623), and `/start` is a standalone command (main.py:619) whose
  return value the framework does not use as a conversation state. Read
  literally, this means the state handlers are never reached. The model
  describes the flow the handlers implement, not that registration.
- `error_handler` and logging. The parameters `delivered`, `invoiceSent` and
  `forwarded` cover three transport calls whose failure the handlers react to:
  - a failed task forward stops `send_file` before the file flag is set;
  - a failed invoice falls through to the bank-transfer path, after the unpaid
    notice has gone out;
  - a failed receipt forward still drops the order and ends the conversation.
- Any other reply, edit or notice that fails after the handler has already
  written something is not modelled; each handler is taken to run to the end.
  The cases the model does not capture:
  - Flow.Conversation.Start: the user data is cleared (main.py:350) before the
    replies (351, 353), and the new empty order is created only after them
    (354), so a failed reply leaves no order at all.
  - Flow.Conversation.Cancel: the order is dropped (main.py:358) before the
    reply (359).
  - Flow.Conversation.OnTypeChoice, Flow.Conversation.OnExplainChoice,
    Flow.Conversation.OnDeadlineChoice and Flow.Conversation.OnExtraParams:
    the new field is written (main.py:369, 420/423, 439, 458) before a reply
    that can fail, leaving it in the order while the state stays where it was.
  - Flow.Conversation.OnSendFile: the task is forwarded (main.py:389, 395,
    400) before the acknowledgement (390, 396, 401). If the acknowledgement
    fails, the file flag stays unset and a retry forwards the task again.
  - Flow.Conversation.OnConfirm: "cancel" drops the order (main.py:502)
    before the edit (503). The unpaid notice (512) goes out before the edits
    at 526 and 533; if the edit after a sent invoice fails, the code falls
    through to the bank-transfer path with the invoice already out.
  - Flow.Conversation.OnSuccessfulPayment: if the reply after the paid notice
    fails (main.py:547), the order stays and the state stays at the payment
    step.
  - Flow.Conversation.OnReceipt: if the error reply (main.py:572) fails, the
    order is never dropped.
- `precheckout_handler`, which always approves the payment and does not
  touch the conversation.
- Text.LowerChar: covers ASCII and the basic Russian alphabet (А–Я, Ё).
  Every other character is left unchanged, including the rest of Cyrillic
  (U+0400–U+040F such as І, Є, Ђ) and other scripts that Python's `lower`
  would fold.
- Text.ParseInt: does not accept the underscores between digits or the
  non-ASCII digits that Python's `int()` also accepts.
- Pricing.ToUsd: the float division `x / 90` is replaced by exact rational
  rounding (half to even). For the amounts the calculator converts, the two
  agree, because these amounts are never within rounding error of a tie.
- The explanation prompt (main.py:213-218) advertises surcharges that differ
  from `EXPLAIN_SURCHARGES`, e.g. 20000 ₽ for a thesis against 15999 ₽. The
  model charges the table, as the code does.
- Behaviours of the code that the model keeps as they are:
  - A missing day count is priced exactly as 0 days, "+0" urgency line
    included, because `selection.get("days", 0)` turns a missing value into 0.
  - No cancel reply is recognised at the payment step or while waiting for
    the receipt. The payment step reacts only to the payment event, and the
    receipt step answers text with a reminder. The standalone `/cancel`
    command (main.py:357-360, registered at 620) still works in every state,
    as `Cancel` does in the model.
  - In the task step, a document or photo is never read as a cancel.
