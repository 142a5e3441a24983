/** The price calculator: fixed per-category tables in roubles and dollars,
    an optional explanation surcharge and an urgency surcharge that decays
    with the number of days allowed. A quote is two parallel lists of line
    items (roubles, dollars) and their two totals. */
module Pricing {
  import opened Wrappers

  /** The eight categories of the catalog, in catalog order. */
  datatype WorkType =
    | Task                    // Задание
    | LabOrTest               // Лабораторная/Контрольная
    | ExamQuestion            // Экзаменационный вопрос
    | Practice                // Практика
    | Coursework              // Курсовая
    | Thesis                  // Дипломная
    | CourseworkPresentation  // Презентация для курсовой
    | ThesisPresentation      // Презентация для диплома

  /** The catalog key of a category, as the customer sees it. */
  function Name(t: WorkType): string
  {
    match t
    case Task => "Задание"
    case LabOrTest => "Лабораторная/Контрольная"
    case ExamQuestion => "Экзаменационный вопрос"
    case Practice => "Практика"
    case Coursework => "Курсовая"
    case Thesis => "Дипломная"
    case CourseworkPresentation => "Презентация для курсовой"
    case ThesisPresentation => "Презентация для диплома"
  }

  /** The English caption shown next to the catalog key. */
  function EnglishName(t: WorkType): string
  {
    match t
    case Task => "Assignment"
    case LabOrTest => "Lab / Quiz"
    case ExamQuestion => "Exam Question"
    case Practice => "Practice"
    case Coursework => "Coursework"
    case Thesis => "Thesis"
    case CourseworkPresentation => "Presentation for Coursework"
    case ThesisPresentation => "Presentation for Thesis"
  }

  /** `text in BASE_PRICES`, answering which category the key names. */
  function Lookup(text: string): (r: Option<WorkType>)
    ensures r.Some? ==> Name(r.value) == text
  {
    if text == Name(Task) then Some(Task)
    else if text == Name(LabOrTest) then Some(LabOrTest)
    else if text == Name(ExamQuestion) then Some(ExamQuestion)
    else if text == Name(Practice) then Some(Practice)
    else if text == Name(Coursework) then Some(Coursework)
    else if text == Name(Thesis) then Some(Thesis)
    else if text == Name(CourseworkPresentation) then Some(CourseworkPresentation)
    else if text == Name(ThesisPresentation) then Some(ThesisPresentation)
    else None
  }

  /** Every catalog key is found, and names its own category. */
  lemma LookupName(t: WorkType)
    ensures Lookup(Name(t)) == Some(t)
  {
  }

  /** BASE_PRICES: the unit price in roubles. */
  function BasePriceRub(t: WorkType): nat
  {
    match t
    case Task => 299
    case LabOrTest => 999
    case ExamQuestion => 999
    case Practice => 4999
    case Coursework => 9999
    case Thesis => 25999
    case CourseworkPresentation => 1999
    case ThesisPresentation => 4999
  }

  /** BASE_PRICES_USD: the unit price in dollars. */
  function BasePriceUsd(t: WorkType): nat
  {
    match t
    case Task => 5
    case LabOrTest => 12
    case ExamQuestion => 12
    case Practice => 59
    case Coursework => 119
    case Thesis => 299
    case CourseworkPresentation => 99
    case ThesisPresentation => 199
  }

  /** The surcharge for categories without an entry of their own. */
  const DefaultExplainSurcharge: nat := 2999

  /** `EXPLAIN_SURCHARGES.get(t, EXPLAIN_SURCHARGES["default"])`. */
  function ExplainSurchargeRub(t: WorkType): nat
  {
    match t
    case Coursework => 5999
    case Thesis => 15999
    case Practice => 1999
    case _ => DefaultExplainSurcharge
  }

  /** The categories priced per item: the base is the unit price times the count. */
  predicate IsQuantityType(t: WorkType)
  {
    t == Task || t == LabOrTest || t == ExamQuestion
  }

  /** How the urgency surcharge decays for a category. `Linear(start, step)`:
      `start` roubles for next-day work, `step` less for each further day,
      never below zero. `CappedRelative(step)`: base and surcharge together
      start at twice the base and fall by `step` a day, never below the base. */
  datatype UrgencyRule = Linear(start: nat, step: nat) | CappedRelative(step: nat)

  function RuleOf(t: WorkType): UrgencyRule
  {
    match t
    case Task => Linear(1500, 100)
    case LabOrTest => Linear(1500, 100)
    case ExamQuestion => Linear(2000, 200)
    case Practice => Linear(4000, 250)
    case Coursework => Linear(6000, 250)
    case CourseworkPresentation => Linear(6000, 250)
    case Thesis => CappedRelative(250)
    case ThesisPresentation => CappedRelative(250)
  }

  function Max(a: int, b: int): int
  {
    if a >= b then a else b
  }

  /** The urgency surcharge in roubles for work due in `days` days. */
  function UrgencyRub(t: WorkType, days: int): (u: nat)
    requires days >= 1
  {
    var raw := match RuleOf(t)
      case Linear(start, step) => Max(start - step * (days - 1), 0)
      case CappedRelative(step) =>
        var base := BasePriceRub(t);
        Max(2 * base - step * (days - 1), base) - base;
    Max(raw, 0)
  }

  /** The surcharge is never negative and never grows as more days are allowed. */
  lemma UrgencyNonIncreasing(t: WorkType, days: int, days': int)
    requires 1 <= days <= days'
    ensures 0 <= UrgencyRub(t, days') <= UrgencyRub(t, days)
  {
    var step := RuleOf(t).step;
    MulMonotone(step, days - 1, days' - 1);
  }

  lemma MulMonotone(k: nat, a: int, b: int)
    requires a <= b
    ensures k * a <= k * b
  {
  }

  /** The linear tiers: start value minus the daily step per extra day, floored at zero. */
  lemma LinearUrgency(t: WorkType, days: int)
    requires days >= 1 && !(t == Thesis || t == ThesisPresentation)
    ensures t in {Task, LabOrTest} ==> UrgencyRub(t, days) == Max(1500 - 100 * (days - 1), 0)
    ensures t == ExamQuestion ==> UrgencyRub(t, days) == Max(2000 - 200 * (days - 1), 0)
    ensures t == Practice ==> UrgencyRub(t, days) == Max(4000 - 250 * (days - 1), 0)
    ensures t in {Coursework, CourseworkPresentation} ==> UrgencyRub(t, days) == Max(6000 - 250 * (days - 1), 0)
  {
  }

  /** The capped-relative categories: the surcharge is at most the base
      price, equals it for next-day work, and base plus surcharge stays in
      [base, 2 * base]. */
  lemma CappedUrgency(t: WorkType, days: int)
    requires days >= 1 && (t == Thesis || t == ThesisPresentation)
    ensures var base := BasePriceRub(t);
      && UrgencyRub(t, days) == Max(2 * base - 250 * (days - 1), base) - base
      && 0 <= UrgencyRub(t, days) <= base
      && base <= base + UrgencyRub(t, days) <= 2 * base
      && (days == 1 ==> UrgencyRub(t, days) == base)
  {
  }

  /** The first day count for which a category carries no urgency surcharge. */
  function NoUrgencyFrom(t: WorkType): nat
  {
    match t
    case Task => 16
    case LabOrTest => 16
    case ExamQuestion => 11
    case Practice => 17
    case Coursework => 25
    case CourseworkPresentation => 25
    case Thesis => 105
    case ThesisPresentation => 21
  }

  /** The surcharge vanishes exactly from `NoUrgencyFrom(t)` days on. */
  lemma UrgencyVanishes(t: WorkType, days: int)
    requires days >= 1
    ensures UrgencyRub(t, days) == 0 <==> days >= NoUrgencyFrom(t)
  {
  }

  // ---------------------------------------------------------------------
  // Conversion to dollars

  /** The fixed exchange rate: roubles per dollar. */
  const RubPerUsd: nat := 90

  /** Python's `round(x / 90)`: the nearest integer, ties to the even one. */
  function ToUsd(x: int): (r: int)
    ensures -45 <= RubPerUsd * r - x <= 45
    ensures (RubPerUsd * r - x == 45 || RubPerUsd * r - x == -45) ==> r % 2 == 0
  {
    var q, m := x / RubPerUsd, x % RubPerUsd;
    if m < 45 then q
    else if m > 45 then q + 1
    else if q % 2 == 0 then q
    else q + 1
  }

  /** Away from ties, Python's rounding is plain round-half-up. */
  lemma ToUsdNoTie(x: int)
    requires x % RubPerUsd != 45
    ensures ToUsd(x) == (x + 45) / RubPerUsd
  {
  }

  /** Every rouble amount the calculator converts ends in 0 or 9, so it is
      never a tie: the conversion is the same under either rounding rule. */
  lemma ConvertedAmountsNeverTie(t: WorkType, days: int)
    requires days >= 1
    ensures ExplainSurchargeRub(t) % RubPerUsd != 45
    ensures UrgencyRub(t, days) % RubPerUsd != 45
  {
    var u := UrgencyRub(t, days);
    assert u % 10 == 0 || u % 10 == 9 by {
      UrgencyLastDigit(t, days);
    }
    NotTie(u);
    NotTie(ExplainSurchargeRub(t));
  }

  lemma UrgencyLastDigit(t: WorkType, days: int)
    requires days >= 1
    ensures UrgencyRub(t, days) % 10 == 0 || UrgencyRub(t, days) % 10 == 9
  {
    var k := days - 1;
    match RuleOf(t)
    case Linear(start, step) =>
      assert start % 10 == 0 && step % 10 == 0;
      MultipleOfTen(start, step, k);
    case CappedRelative(step) =>
      var base := BasePriceRub(t);
      assert UrgencyRub(t, days) == Max(base - 250 * k, 0);
      if base - 250 * k > 0 {
        assert (base - 250 * k) % 10 == 9 by {
          assert base % 10 == 9;
          assert base - 250 * k == base - 10 * (25 * k);
        }
      }
  }

  lemma MultipleOfTen(start: nat, step: nat, k: int)
    requires start % 10 == 0 && step % 10 == 0
    ensures Max(start - step * k, 0) % 10 == 0
  {
    var a, b := start / 10, step / 10;
    assert start - step * k == 10 * (a - b * k);
  }

  lemma NotTie(x: int)
    requires x % 10 == 0 || x % 10 == 9
    ensures x % RubPerUsd != 45
  {
    assert x % 10 == (x % 90) % 10;
  }

  // ---------------------------------------------------------------------
  // The quote

  /** What `calculate_price` reads from an order, after defaults. */
  datatype Selection = Selection(workType: WorkType, explain: bool, days: int, extraCount: int)

  /** What a line item says besides its amount; `unit` is in the line's own currency. */
  datatype LineKind =
    | BaseTimes(unit: nat, count: int)  // "<type> — <unit> × <count> = <amount>"
    | BaseFlat                           // "<type> = <amount>"
    | Explanation                        // "For explanations = +<amount>"
    | UrgencyFor(days: int)              // "Urgency (<days> days) = +<amount>"
    | UrgencyUnset                       // "Urgency = +0"

  datatype LineItem = LineItem(kind: LineKind, amount: int)

  datatype Quote = Quote(totalRub: int, totalUsd: int, linesRub: seq<LineItem>, linesUsd: seq<LineItem>)

  const EmptyQuote := Quote(0, 0, [], [])

  function Sum(lines: seq<LineItem>): int
  {
    if lines == [] then 0 else lines[0].amount + Sum(lines[1..])
  }

  lemma {:induction false} SumAppend(lines: seq<LineItem>, item: LineItem)
    ensures Sum(lines + [item]) == Sum(lines) + item.amount
  {
    if lines != [] {
      assert (lines + [item])[1..] == lines[1..] + [item];
      SumAppend(lines[1..], item);
    }
  }

  /** Both currencies list the same number of lines, and each total is the
      sum of its lines. */
  predicate Balanced(q: Quote)
  {
    |q.linesRub| == |q.linesUsd| && q.totalRub == Sum(q.linesRub) && q.totalUsd == Sum(q.linesUsd)
  }

  /** Appends one line per currency and adds its amounts to the totals. */
  function Charge(q: Quote, rub: LineItem, usd: LineItem): (r: Quote)
    ensures Balanced(q) ==> Balanced(r)
  {
    SumAppend(q.linesRub, rub);
    SumAppend(q.linesUsd, usd);
    Quote(q.totalRub + rub.amount, q.totalUsd + usd.amount, q.linesRub + [rub], q.linesUsd + [usd])
  }

  /** Appends a "+0" line per currency; the totals stay as they are. */
  function NoteZero(q: Quote, kind: LineKind): (r: Quote)
    ensures Balanced(q) ==> Balanced(r)
  {
    SumAppend(q.linesRub, LineItem(kind, 0));
    SumAppend(q.linesUsd, LineItem(kind, 0));
    Quote(q.totalRub, q.totalUsd, q.linesRub + [LineItem(kind, 0)], q.linesUsd + [LineItem(kind, 0)])
  }

  /** The base cost in roubles and in dollars. */
  function BaseRub(sel: Selection): int
  {
    if IsQuantityType(sel.workType) then BasePriceRub(sel.workType) * sel.extraCount
    else BasePriceRub(sel.workType)
  }

  function BaseUsd(sel: Selection): int
  {
    if IsQuantityType(sel.workType) then BasePriceUsd(sel.workType) * sel.extraCount
    else BasePriceUsd(sel.workType)
  }

  /** Step 1: the base line. */
  function AddBase(q: Quote, sel: Selection): Quote
  {
    var t := sel.workType;
    if IsQuantityType(t) then
      Charge(q, LineItem(BaseTimes(BasePriceRub(t), sel.extraCount), BaseRub(sel)),
                LineItem(BaseTimes(BasePriceUsd(t), sel.extraCount), BaseUsd(sel)))
    else
      Charge(q, LineItem(BaseFlat, BaseRub(sel)), LineItem(BaseFlat, BaseUsd(sel)))
  }

  /** Step 2: the explanation surcharge, if asked for. */
  function AddExplain(q: Quote, sel: Selection): Quote
  {
    if sel.explain then
      var surcharge := ExplainSurchargeRub(sel.workType);
      Charge(q, LineItem(Explanation, surcharge), LineItem(Explanation, ToUsd(surcharge)))
    else q
  }

  /** Step 3: the urgency line. A positive day count always gets a line,
      "+0" when the surcharge has decayed to nothing; zero days get an
      "Urgency = +0" line; a negative count gets none. */
  function AddUrgency(q: Quote, sel: Selection): Quote
  {
    if sel.days > 0 then
      var urgency := UrgencyRub(sel.workType, sel.days);
      if urgency > 0 then
        Charge(q, LineItem(UrgencyFor(sel.days), urgency), LineItem(UrgencyFor(sel.days), ToUsd(urgency)))
      else NoteZero(q, UrgencyFor(sel.days))
    else if sel.days == 0 then NoteZero(q, UrgencyUnset)
    else q
  }

  /** `calculate_price`: the three steps in order, starting from nothing. */
  function CalculatePrice(sel: Selection): (q: Quote)
    ensures Balanced(q)
    ensures |q.linesRub| == 1 + (if sel.explain then 1 else 0) + (if sel.days >= 0 then 1 else 0)
  {
    AddUrgency(AddExplain(AddBase(EmptyQuote, sel), sel), sel)
  }

  /** The explanation surcharge charged, in roubles (zero when not asked for). */
  function ExplainCharged(sel: Selection): nat
  {
    if sel.explain then ExplainSurchargeRub(sel.workType) else 0
  }

  /** The urgency surcharge charged, in roubles (zero unless days > 0). */
  function UrgencyCharged(sel: Selection): nat
  {
    if sel.days > 0 then UrgencyRub(sel.workType, sel.days) else 0
  }

  /** The totals: base plus explanation plus urgency, each surcharge
      converted to dollars on its own. */
  lemma PriceTotals(sel: Selection)
    ensures CalculatePrice(sel).totalRub == BaseRub(sel) + ExplainCharged(sel) + UrgencyCharged(sel)
    ensures CalculatePrice(sel).totalUsd == BaseUsd(sel) + ToUsd(ExplainCharged(sel)) + ToUsd(UrgencyCharged(sel))
  {
  }

  /** The first line is the base line: unit price times count for the
      quantity categories, the flat price otherwise, in both currencies.
      With explanations the second line is the category's surcharge and its
      dollar conversion. */
  lemma LeadingLines(sel: Selection)
    ensures var q, t := CalculatePrice(sel), sel.workType;
      && q.linesRub[0] == (if IsQuantityType(t)
                           then LineItem(BaseTimes(BasePriceRub(t), sel.extraCount), BasePriceRub(t) * sel.extraCount)
                           else LineItem(BaseFlat, BasePriceRub(t)))
      && q.linesUsd[0] == (if IsQuantityType(t)
                           then LineItem(BaseTimes(BasePriceUsd(t), sel.extraCount), BasePriceUsd(t) * sel.extraCount)
                           else LineItem(BaseFlat, BasePriceUsd(t)))
    ensures var q := CalculatePrice(sel);
      sel.explain ==>
        && q.linesRub[1] == LineItem(Explanation, ExplainSurchargeRub(sel.workType))
        && q.linesUsd[1] == LineItem(Explanation, ToUsd(ExplainSurchargeRub(sel.workType)))
  {
  }

  /** Quantity categories: the base line is the unit price times the count
      in both currencies, so the totals grow by one unit price per item. */
  lemma QuantityScaling(sel: Selection, n: int)
    requires IsQuantityType(sel.workType)
    ensures var q, q1 := CalculatePrice(sel.(extraCount := n)), CalculatePrice(sel.(extraCount := 1));
      && q.linesRub[0] == LineItem(BaseTimes(BasePriceRub(sel.workType), n), n * BasePriceRub(sel.workType))
      && q.linesUsd[0] == LineItem(BaseTimes(BasePriceUsd(sel.workType), n), n * BasePriceUsd(sel.workType))
      && q.linesRub[0].amount == n * q1.linesRub[0].amount
      && q.linesUsd[0].amount == n * q1.linesUsd[0].amount
      && q.totalRub == q1.totalRub + (n - 1) * BasePriceRub(sel.workType)
      && q.totalUsd == q1.totalUsd + (n - 1) * BasePriceUsd(sel.workType)
  {
    var t := sel.workType;
    var sn, s1 := sel.(extraCount := n), sel.(extraCount := 1);
    PriceTotals(sn);
    PriceTotals(s1);
    assert BaseRub(sn) == BasePriceRub(t) * n && BaseRub(s1) == BasePriceRub(t);
    assert BaseUsd(sn) == BasePriceUsd(t) * n && BaseUsd(s1) == BasePriceUsd(t);
    assert ExplainCharged(sn) == ExplainCharged(s1) && UrgencyCharged(sn) == UrgencyCharged(s1);
    assert (n - 1) * BasePriceRub(t) == n * BasePriceRub(t) - BasePriceRub(t);
    assert (n - 1) * BasePriceUsd(t) == n * BasePriceUsd(t) - BasePriceUsd(t);
  }

  /** The other categories ignore the count altogether. */
  lemma CountIgnored(sel: Selection, n: int)
    requires !IsQuantityType(sel.workType)
    ensures CalculatePrice(sel.(extraCount := n)) == CalculatePrice(sel)
  {
  }

  /** Where the urgency line is and what it holds: none for negative days;
      otherwise it is the last line of each list, labelled with the day
      count (or unlabelled for zero days), with the urgency charged. */
  lemma UrgencyLine(sel: Selection)
    ensures var q := CalculatePrice(sel);
      && (sel.days < 0 ==> |q.linesRub| == 1 + (if sel.explain then 1 else 0)
                           && (forall i :: 0 <= i < |q.linesRub| ==> !q.linesRub[i].kind.UrgencyFor? && !q.linesRub[i].kind.UrgencyUnset?)
                           && (forall i :: 0 <= i < |q.linesUsd| ==> !q.linesUsd[i].kind.UrgencyFor? && !q.linesUsd[i].kind.UrgencyUnset?))
      && (sel.days >= 0 ==>
            var last := |q.linesRub| - 1;
            && q.linesRub[last].kind == q.linesUsd[last].kind == (if sel.days > 0 then UrgencyFor(sel.days) else UrgencyUnset)
            && q.linesRub[last].amount == UrgencyCharged(sel)
            && q.linesUsd[last].amount == ToUsd(UrgencyCharged(sel)))
  {
  }

  /** No positive day count: only the base and the explanation are charged. */
  lemma NoDaysNoUrgency(sel: Selection)
    requires sel.days <= 0
    ensures CalculatePrice(sel).totalRub == BaseRub(sel) + ExplainCharged(sel)
    ensures CalculatePrice(sel).totalUsd == BaseUsd(sel) + ToUsd(ExplainCharged(sel))
  {
    PriceTotals(sel);
  }

  /** Two assignments with explanations, due tomorrow: three lines, the full
      next-day surcharge on top of twice the unit price. */
  lemma TwoTasksTomorrow()
    ensures var q := CalculatePrice(Selection(Task, true, 1, 2));
      && |q.linesRub| == 3
      && q.totalRub == 2 * 299 + 2999 + 1500 == 5097
      && q.totalUsd == 2 * 5 + 33 + 17 == 60
  {
    PriceTotals(Selection(Task, true, 1, 2));
  }

  /** A thesis due tomorrow without explanations: the urgency line equals the
      base price, the largest premium the category allows. */
  lemma ThesisTomorrow()
    ensures var q := CalculatePrice(Selection(Thesis, false, 1, 1));
      && |q.linesRub| == 2
      && q.linesRub[1] == LineItem(UrgencyFor(1), BasePriceRub(Thesis))
      && q.totalRub == 2 * 25999
      && q.totalUsd == 299 + 289
  {
  }
}
