/**
  The price breakdown of the combo subscription dialog: two programs'
  plans are matched by duration and priced together, in integer paise,
  with a percentage discount taken from the basics plan.
 */
module ComboPricing {
  import opened Wrappers
  import opened Numbers

  /** One purchasable duration tier of a program. Amounts are in paise. */
  datatype Plan = Plan(
    id: string,
    name: string,
    durationMonths: int,
    price: int,
    workbookPrice: Option<int>,
    workbookNote: Option<string>,
    comboDiscount: Option<int>)

  /** The itemised amounts the dialog shows. */
  datatype Prices = Prices(
    basicsTotal: int,
    advancedTotal: int,
    originalTotal: int,
    comboDiscount: int,
    discountAmount: int,
    finalTotal: int,
    basicsWorkbook: int,
    advancedWorkbook: int)

  /** The two matched plans and their breakdown. */
  datatype Quote = Quote(basicsPlan: Plan, advancedPlan: Plan, prices: Prices)

  /** `x || 0` on an optional amount. */
  function OrZero(x: Option<int>): int {
    if x.Some? then x.value else 0
  }

  /** Position of the plan `plans.find(p => p.durationMonths === months)` returns. */
  function PlanIndex(plans: seq<Plan>, months: int): (r: Option<nat>)
    ensures r.Some? ==> r.value < |plans| && plans[r.value].durationMonths == months
    ensures r.Some? ==> forall j :: 0 <= j < r.value ==> plans[j].durationMonths != months
    ensures r.None? ==> forall j :: 0 <= j < |plans| ==> plans[j].durationMonths != months
  {
    if plans == [] then None
    else if plans[0].durationMonths == months then Some(0)
    else
      match PlanIndex(plans[1..], months)
      case None => None
      case Some(i) => Some(i + 1)
  }

  /** `plans.find(p => p.durationMonths === months)`. */
  function FindPlan(plans: seq<Plan>, months: int): (r: Option<Plan>)
    ensures r.Some? ==> r.value in plans && r.value.durationMonths == months
    ensures r.Some? ==> exists i :: && 0 <= i < |plans| && plans[i] == r.value
                                    && forall j :: 0 <= j < i ==> plans[j].durationMonths != months
    ensures r.None? <==> forall p | p in plans :: p.durationMonths != months
  {
    match PlanIndex(plans, months)
    case None => None
    case Some(i) => Some(plans[i])
  }

  /**
    Plans are matched on `durationMonths` alone: two lists that agree on
    every position's duration pick the same position, whatever their ids,
    names and prices.
   */
  lemma {:induction false} MatchedByDurationOnly(plans: seq<Plan>, others: seq<Plan>, months: int)
    requires |plans| == |others|
    requires forall i :: 0 <= i < |plans| ==> plans[i].durationMonths == others[i].durationMonths
    ensures PlanIndex(plans, months) == PlanIndex(others, months)
  {
    if plans != [] && plans[0].durationMonths != months {
      MatchedByDurationOnly(plans[1..], others[1..], months);
    }
  }

  /**
    The breakdown for two matched plans. The discount is
    `Math.round(originalTotal * (comboDiscount / 100))`, here exactly the
    nearest integer with a half rounded up.
   */
  function Price(basics: Plan, advanced: Plan, includeWorkbooks: bool): (p: Prices)
    ensures p.basicsWorkbook == (if includeWorkbooks then OrZero(basics.workbookPrice) else 0)
    ensures p.advancedWorkbook == (if includeWorkbooks then OrZero(advanced.workbookPrice) else 0)
    ensures p.originalTotal == basics.price + advanced.price + p.basicsWorkbook + p.advancedWorkbook
    ensures p.basicsTotal == basics.price + p.basicsWorkbook
    ensures p.advancedTotal == advanced.price + p.advancedWorkbook
    ensures p.originalTotal == p.basicsTotal + p.advancedTotal
    ensures p.comboDiscount == OrZero(basics.comboDiscount)
    ensures 100 * (2 * p.discountAmount - 1) <= 2 * p.originalTotal * p.comboDiscount < 100 * (2 * p.discountAmount + 1)
    ensures p.finalTotal + p.discountAmount == p.originalTotal
  {
    var basicsWorkbook := if includeWorkbooks then OrZero(basics.workbookPrice) else 0;
    var advancedWorkbook := if includeWorkbooks then OrZero(advanced.workbookPrice) else 0;
    var basicsTotal := basics.price + basicsWorkbook;
    var advancedTotal := advanced.price + advancedWorkbook;
    var originalTotal := basicsTotal + advancedTotal;
    var comboDiscount := OrZero(basics.comboDiscount);
    var discountAmount := RoundHalfUp(originalTotal * comboDiscount, 100);
    var finalTotal := originalTotal - discountAmount;
    Prices(basicsTotal, advancedTotal, originalTotal, comboDiscount,
           discountAmount, finalTotal, basicsWorkbook, advancedWorkbook)
  }

  /** Amounts that are never negative, and a discount of at most 100 percent. */
  predicate SanePlans(basics: Plan, advanced: Plan) {
    && basics.price >= 0 && advanced.price >= 0
    && OrZero(basics.workbookPrice) >= 0 && OrZero(advanced.workbookPrice) >= 0
    && 0 <= OrZero(basics.comboDiscount) <= 100
  }

  /** With sane plans the discount lies between 0 and the original total, and so does the final total. */
  lemma PriceBounds(basics: Plan, advanced: Plan, includeWorkbooks: bool)
    requires SanePlans(basics, advanced)
    ensures var p := Price(basics, advanced, includeWorkbooks);
            && 0 <= p.discountAmount <= p.originalTotal
            && 0 <= p.finalTotal <= p.originalTotal
  {
    var p := Price(basics, advanced, includeWorkbooks);
    ProductBounds(p.originalTotal, p.comboDiscount);
  }

  lemma ProductBounds(total: int, percent: int)
    requires total >= 0 && 0 <= percent <= 100
    ensures 0 <= total * percent <= 100 * total
  {
  }

  /** Including the workbooks adds exactly both workbook prices to the original total. */
  lemma WorkbooksAddTheirPrices(basics: Plan, advanced: Plan)
    ensures Price(basics, advanced, true).originalTotal
         == Price(basics, advanced, false).originalTotal
            + OrZero(basics.workbookPrice) + OrZero(advanced.workbookPrice)
  {
  }

  /**
    The dialog's breakdown for a duration: nothing when either program has
    no plan of that duration, otherwise the first matching plans, priced.
   */
  function Breakdown(basicsPlans: seq<Plan>, advancedPlans: seq<Plan>, duration: int, includeWorkbooks: bool): (r: Option<Quote>)
    ensures r.None? <==> ((forall p | p in basicsPlans :: p.durationMonths != duration) ||
                          (forall p | p in advancedPlans :: p.durationMonths != duration))
    ensures r.Some? ==> && r.value.basicsPlan in basicsPlans
                        && r.value.advancedPlan in advancedPlans
                        && r.value.basicsPlan.durationMonths == duration
                        && r.value.advancedPlan.durationMonths == duration
                        && r.value.basicsPlan == FindPlan(basicsPlans, duration).value
                        && r.value.advancedPlan == FindPlan(advancedPlans, duration).value
                        && r.value.prices == Price(r.value.basicsPlan, r.value.advancedPlan, includeWorkbooks)
  {
    var basics := FindPlan(basicsPlans, duration);
    var advanced := FindPlan(advancedPlans, duration);
    if basics.None? || advanced.None? then None
    else Some(Quote(basics.value, advanced.value, Price(basics.value, advanced.value, includeWorkbooks)))
  }

  /** The two worked examples: 10 percent off 899 rupees, without and with workbooks. */
  lemma WorkedExamples()
    ensures var basics := Plan("b3", "3 Months", 3, 39900, Some(24900), None, Some(10));
            var advanced := Plan("a3", "3 Months", 3, 49900, Some(25000), None, Some(10));
            && Price(basics, advanced, false).originalTotal == 89800
            && Price(basics, advanced, false).discountAmount == 8980
            && Price(basics, advanced, false).finalTotal == 80820
            && Price(basics, advanced, true).originalTotal == 139700
            && Price(basics, advanced, true).discountAmount == 13970
            && Price(basics, advanced, true).finalTotal == 125730
  {
  }
}

/**
  The combo subscription dialog's own state: the chosen duration, the
  workbook flag and the `loading` flag of the checkout, driven by button
  clicks and by the payment widget's callbacks. The order request and the
  widget are outside the model; their results arrive as parameters.
 */
module ComboCheckout {
  import opened Wrappers
  import opened ComboPricing

  /** A program as the dialog receives it. */
  datatype Program = Program(id: int, name: string, plans: seq<Plan>)

  /** The body of the combo order request. */
  datatype OrderRequest = OrderRequest(
    basicsClassId: int,
    advancedClassId: int,
    durationMonths: int,
    gateway: string,
    includeWorkbooks: bool)

  /**
    How the order step ended: the payment widget opened, or the order was
    refused, its reply was unreadable, the widget script could not be
    loaded, or the request threw.
   */
  datatype OrderOutcome = CheckoutOpened | OrderFailed

  /** The `selectedDuration` prop defaults to three months. */
  const DefaultDuration: int := 3

  function DurationOrDefault(selectedDuration: Option<int>): int {
    selectedDuration.GetOr(DefaultDuration)
  }

  class ComboDialog {
    const basicsProgram: Program
    const advancedProgram: Program
    var duration: int
    var includeWorkbooks: bool
    var loading: bool
    /** How many times the dialog has asked its owner to close it (`onClose`). */
    var closeRequests: nat
    /** The order sent whose reply (or widget script) is still awaited. */
    var orderInFlight: Option<OrderRequest>

    /** The memoised breakdown for the current selection. */
    function CurrentQuote(): (r: Option<Quote>)
      reads this
      ensures r.Some? ==> && r.value.basicsPlan in basicsProgram.plans
                          && r.value.advancedPlan in advancedProgram.plans
                          && r.value.basicsPlan.durationMonths == duration
                          && r.value.advancedPlan.durationMonths == duration
      ensures r.Some? && !includeWorkbooks ==>
                r.value.prices.originalTotal == r.value.basicsPlan.price + r.value.advancedPlan.price
    {
      Breakdown(basicsProgram.plans, advancedProgram.plans, duration, includeWorkbooks)
    }

    /** The dialog renders nothing when there is no breakdown. */
    predicate Renders()
      reads this
      ensures Renders() <==> && (exists p :: p in basicsProgram.plans && p.durationMonths == duration)
                             && (exists p :: p in advancedProgram.plans && p.durationMonths == duration)
    {
      CurrentQuote().Some?
    }

    /** Pay and Cancel are rendered only with a breakdown and are disabled while loading. */
    predicate PayEnabled()
      reads this
      ensures PayEnabled() ==> !loading && CurrentQuote().Some?
    {
      Renders() && !loading
    }

    /** The workbook button is shown when either matched plan has a positive workbook price. */
    predicate WorkbooksOffered()
      reads this
      ensures WorkbooksOffered() ==> Renders()
      ensures WorkbooksOffered() &&
              OrZero(CurrentQuote().value.basicsPlan.workbookPrice) >= 0 &&
              OrZero(CurrentQuote().value.advancedPlan.workbookPrice) >= 0 ==>
                var q := CurrentQuote().value;
                Price(q.basicsPlan, q.advancedPlan, true).originalTotal
                  > Price(q.basicsPlan, q.advancedPlan, false).originalTotal
    {
      Renders() &&
      (OrZero(CurrentQuote().value.basicsPlan.workbookPrice) > 0 ||
       OrZero(CurrentQuote().value.advancedPlan.workbookPrice) > 0)
    }

    constructor (basics: Program, advanced: Program, selectedDuration: Option<int>)
      ensures basicsProgram == basics && advancedProgram == advanced
      ensures duration == DurationOrDefault(selectedDuration)
      ensures !includeWorkbooks && !loading && closeRequests == 0 && orderInFlight.None?
    {
      basicsProgram := basics;
      advancedProgram := advanced;
      duration := DurationOrDefault(selectedDuration);
      includeWorkbooks := false;
      loading := false;
      closeRequests := 0;
      orderInFlight := None;
    }

    /** The effect that runs when the dialog is opened: only the duration is reset. */
    method Open(selectedDuration: Option<int>)
      modifies this`duration
      ensures duration == DurationOrDefault(selectedDuration)
    {
      duration := DurationOrDefault(selectedDuration);
    }

    /** A click on one of the duration buttons, one per basics plan. */
    method ChooseDuration(i: nat)
      requires Renders() && i < |basicsProgram.plans|
      modifies this`duration
      ensures duration == basicsProgram.plans[i].durationMonths
    {
      duration := basicsProgram.plans[i].durationMonths;
    }

    /** The workbook button flips the flag. */
    method ToggleWorkbooks()
      requires WorkbooksOffered()
      modifies this`includeWorkbooks
      ensures includeWorkbooks == !old(includeWorkbooks)
    {
      includeWorkbooks := !includeWorkbooks;
    }

    /**
      `handleSubscribe` up to the order request: it sets `loading` and
      sends the order for the current selection without looking at
      `loading` first. The order stays in flight, across the order reply,
      its JSON and the loading of the widget script, until `FinishOrder`.
     */
    method BeginSubscribe() returns (request: OrderRequest)
      modifies this`loading, this`orderInFlight
      ensures request == OrderRequest(basicsProgram.id, advancedProgram.id, duration, "RAZORPAY", includeWorkbooks)
      ensures loading && orderInFlight == Some(request)
    {
      loading := true;
      request := OrderRequest(basicsProgram.id, advancedProgram.id, duration, "RAZORPAY", includeWorkbooks);
      orderInFlight := Some(request);
    }

    /**
      `handleSubscribe` after the order step: the widget opens for the order
      that was sent, whatever the duration and workbook flag are by now, and
      `loading` stays set; a failed step clears `loading`.
     */
    method FinishOrder(outcome: OrderOutcome) returns (widgetOrder: Option<OrderRequest>)
      requires orderInFlight.Some?
      modifies this`loading, this`orderInFlight
      ensures widgetOrder == (if outcome == CheckoutOpened then old(orderInFlight) else None)
      ensures orderInFlight.None?
      ensures loading == (outcome == CheckoutOpened && old(loading))
    {
      widgetOrder := if outcome == CheckoutOpened then orderInFlight else None;
      orderInFlight := None;
      if outcome == OrderFailed {
        loading := false;
      }
    }

    /** A click on Pay: the button is disabled while loading, so then nothing is sent. */
    method ClickPay() returns (request: Option<OrderRequest>)
      modifies this`loading, this`orderInFlight
      ensures request.Some? <==> old(PayEnabled())
      ensures request.Some? ==> (&& request.value.durationMonths == duration
                                 && request.value.includeWorkbooks == includeWorkbooks
                                 && loading && orderInFlight == request)
      ensures request.None? ==> loading == old(loading) && orderInFlight == old(orderInFlight)
    {
      if PayEnabled() {
        var r := BeginSubscribe();
        request := Some(r);
      } else {
        request := None;
      }
    }

    /** The widget's `modal.ondismiss` callback. */
    method Dismiss()
      modifies this`loading
      ensures !loading
    {
      loading := false;
    }

    /**
      The widget's `handler`, after the verification request: on success
      the dialog asks to be closed. Neither outcome clears `loading`.
     */
    method PaymentHandled(verified: bool)
      modifies this`closeRequests
      ensures closeRequests == old(closeRequests) + (if verified then 1 else 0)
    {
      if verified {
        closeRequests := closeRequests + 1;
      }
    }

    /** The dialog's own close control and the overlay ask to close it even while loading. */
    method CloseFromDialog()
      modifies this`closeRequests
      ensures closeRequests == old(closeRequests) + 1
    {
      closeRequests := closeRequests + 1;
    }

    /** A click on Cancel, which is disabled while loading. */
    method ClickCancel()
      modifies this`closeRequests
      ensures closeRequests == old(closeRequests) + (if old(PayEnabled()) then 1 else 0)
    {
      if PayEnabled() {
        closeRequests := closeRequests + 1;
      }
    }
  }

  /** Toggling the workbooks twice gives back the breakdown the dialog started with. */
  method ToggleTwiceRestoresQuote(d: ComboDialog)
    requires d.WorkbooksOffered()
    modifies d
    ensures d.CurrentQuote() == old(d.CurrentQuote())
  {
    d.ToggleWorkbooks();
    assert d.duration == old(d.duration);
    assert d.WorkbooksOffered();
    d.ToggleWorkbooks();
  }

  /**
    One order per checkout: Pay clicked again while the order request is in
    flight, and again once the widget is open, sends nothing and changes
    neither `loading` nor the order in flight.
   */
  method RepeatedPaySendsOneOrder(d: ComboDialog)
    returns (first: Option<OrderRequest>, duringOrder: Option<OrderRequest>,
             widgetOrder: Option<OrderRequest>, whileOpen: Option<OrderRequest>)
    requires d.PayEnabled()
    modifies d
    ensures first.Some? && duringOrder.None? && whileOpen.None?
    ensures widgetOrder == first && d.loading && d.orderInFlight.None?
  {
    first := d.ClickPay();
    duringOrder := d.ClickPay();
    widgetOrder := d.FinishOrder(CheckoutOpened);
    whileOpen := d.ClickPay();
  }

  /**
    The duration buttons stay live while the order is in flight: a
    different duration chosen then does not change the order the widget
    opens for, which keeps the duration of the click on Pay.
   */
  method DurationChosenMidOrder(d: ComboDialog, i: nat)
    returns (sent: Option<OrderRequest>, widgetOrder: Option<OrderRequest>)
    requires d.PayEnabled() && i < |d.basicsProgram.plans|
    modifies d
    ensures sent.Some? && widgetOrder == sent
    ensures sent.value.durationMonths == old(d.duration)
    ensures d.duration == d.basicsProgram.plans[i].durationMonths
  {
    sent := d.ClickPay();
    d.ChooseDuration(i);
    widgetOrder := d.FinishOrder(CheckoutOpened);
  }
}
