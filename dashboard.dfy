/**
 * The dashboard's payment workflow. The page keeps the active session, the
 * payment history, the loaded fee structure and four pieces of workflow
 * state (`showModal`, `initiating`, `verificationState`, and the armed reset
 * timers); a payment runs as a chain of events: confirm in the invoice, the
 * backend's answer to the initiate request, the payment widget's close or
 * success callback, the backend's answer to the verify request, and the
 * reset timer. Each await of the source is split into the event that sends
 * the request and the event that delivers its answer; `flow` records what
 * the pending continuation captured (token, fee structure, reference).
 */
module Dashboard {
  import opened Js
  import opened Types
  import opened Http
  import opened Storage
  import opened Session

  /** `verificationState`: "idle" | "verifying" | "success". */
  datatype VerificationState = Idle | Verifying | Confirmed

  datatype ToastKind = ErrorToast | SuccessToast

  /** A transient notification. */
  datatype Toast = Toast(kind: ToastKind, message: string)

  const AuthErrorToast := Toast(ErrorToast, "Authentication error. Please login again.")
  const FeeNotLoadedToast := Toast(ErrorToast, "Fee structure not loaded. Please refresh the page.")
  const InitiateFailedToast := Toast(ErrorToast, "Failed to initiate payment. Check connection.")
  const CancelledToast := Toast(SuccessToast, "Transaction cancelled")
  const VerifyFailedToast := Toast(SuccessToast, "Payment successful at Paystack, but server verification failed.")

  /** POST initiate-payment: the bearer token and the body `{amount, session}`. */
  datatype InitiateRequest = InitiateRequest(token: string, amount: int, session: string)

  /** The backend's answer to an initiate request. */
  datatype PaymentIntent = PaymentIntent(publicKey: string, ref: string, email: string, amountKobo: int)

  /** What the payment widget is set up with before it opens. */
  datatype WidgetSetup = WidgetSetup(key: string, email: string, amount: int, ref: string)

  /** GET verify/{ref}: the bearer token and the reference. */
  datatype VerifyRequest = VerifyRequest(token: string, ref: string)

  /**
   * The fields the client reads from a verify answer; `None` is a missing
   * field. A status is either absent or one of the three statuses.
   */
  datatype VerifyData = VerifyData(
    id: Option<string>,
    purpose: Option<string>,
    session: Option<string>,
    status: Option<PaymentStatus>,
    date: Option<string>)

  /** Where the asynchronous part of `confirmPayment` stands, and what it captured. */
  datatype Flow =
    | NoFlow
    | AwaitingInitiate(token: string, fee: FeeStructure)
    | WidgetOpen(token: string, fee: FeeStructure, ref: string)
    | AwaitingVerify(token: string, fee: FeeStructure, ref: string)

  /** The session recorded when a verify answer has none. */
  const FallbackSession: string := "2023/2024"

  /**
   * The record built from a verify answer: the reference and the fee amount
   * of this payment, and each backend field unless it is missing or empty,
   * in which case its fallback (`nowId` stands for `Date.now()`, `today` for
   * today's date).
   */
  function NewPayment(data: VerifyData, ref: string, amount: int, nowId: string, today: string): (p: Payment)
    ensures p.reference == ref && p.amount == amount
    ensures p.id == (if Truthy(data.id) then data.id.value else nowId)
    ensures p.purpose == (if Truthy(data.purpose) then data.purpose.value else SchoolFees)
    ensures p.session == (if Truthy(data.session) then data.session.value else FallbackSession)
    ensures p.date == (if Truthy(data.date) then data.date.value else today)
    ensures p.status == (if data.status.Some? then data.status.value else Success)
  {
    Payment(
      OrElse(data.id, nowId),
      ref,
      amount,
      match data.status case Some(s) => s case None => Success,
      OrElse(data.date, today),
      OrElse(data.purpose, SchoolFees),
      OrElse(data.session, FallbackSession))
  }

  /** A verify answer with every field filled in is recorded as it stands. */
  lemma CompleteAnswerRecordedAsIs(data: VerifyData, ref: string, amount: int, nowId: string, today: string)
    requires Truthy(data.id) && Truthy(data.purpose) && Truthy(data.session) && Truthy(data.date)
    requires data.status.Some?
    ensures NewPayment(data, ref, amount, nowId, today)
         == Payment(data.id.value, ref, amount, data.status.value, data.date.value,
                    data.purpose.value, data.session.value)
  {
  }

  /**
   * A verify answer without a status is recorded as a successful payment,
   * whatever else it says.
   */
  lemma MissingStatusRecordedAsSuccess(data: VerifyData, ref: string, amount: int, nowId: string, today: string)
    requires data.status.None?
    ensures NewPayment(data, ref, amount, nowId, today).status == Success
  {
  }

  /** When the clock-derived fallbacks are non-empty, no field of the record is empty. */
  lemma RecordFieldsNeverEmpty(data: VerifyData, ref: string, amount: int, nowId: string, today: string)
    requires nowId != "" && today != ""
    ensures var p := NewPayment(data, ref, amount, nowId, today);
      p.id != "" && p.date != "" && p.purpose != "" && p.session != ""
  {
  }

  class DashboardPage {
    var activeSession: string
    var payments: seq<Payment>
    var feeStructure: Option<FeeStructure>
    var showModal: bool
    var initiating: bool
    var verification: VerificationState
    /** The continuation of a payment in progress. */
    var flow: Flow
    /** Reset timers armed by successful verifications and not yet fired. */
    var pendingResets: nat

    /** `initiating` is set exactly while a payment is in progress. */
    ghost predicate Valid()
      reads this
    {
      initiating <==> !flow.NoFlow?
    }

    constructor ()
      ensures Valid()
      ensures activeSession == InitialSession && payments == [] && feeStructure == None
      ensures !showModal && !initiating && verification == Idle
      ensures flow == NoFlow && pendingResets == 0
    {
      activeSession := InitialSession;
      payments := [];
      feeStructure := None;
      showModal := false;
      initiating := false;
      verification := Idle;
      flow := NoFlow;
      pendingResets := 0;
    }

    /**
     * `fetchHistory`: only with a stored token; a successful answer replaces
     * the history and moves the active session past the latest school fees.
     */
    method FetchHistory(store: LocalStorage, response: Response<seq<Payment>>) returns (requested: bool)
      requires Valid()
      modifies this`payments, this`activeSession
      ensures Valid()
      ensures requested == Truthy(store.GetItem(TokenKey))
      ensures requested && response.Ok? ==>
        payments == response.data && activeSession == ActiveSessionAfter(response.data, old(activeSession))
      ensures !(requested && response.Ok?) ==>
        payments == old(payments) && activeSession == old(activeSession)
    {
      var token := store.GetItem(TokenKey);
      requested := Truthy(token);
      if requested {
        match response
        case Ok(history) =>
          payments := history;
          activeSession := ActiveSessionAfter(history, activeSession);
        case Failed(_) =>
      }
    }

    /** `fetchFeeStructure`: only with a stored token; a failure leaves it unloaded. */
    method FetchFeeStructure(store: LocalStorage, response: Response<FeeStructure>) returns (requested: bool)
      requires Valid()
      modifies this`feeStructure
      ensures Valid()
      ensures requested == Truthy(store.GetItem(TokenKey))
      ensures feeStructure == if requested && response.Ok? then Some(response.data) else old(feeStructure)
    {
      var token := store.GetItem(TokenKey);
      requested := Truthy(token);
      if requested && response.Ok? {
        feeStructure := Some(response.data);
      }
    }

    /** The pay button's `disabled` attribute in the year `currentYear`. */
    function PayButtonDisabled(currentYear: int): (disabled: bool)
      reads this
      ensures disabled <==>
        StartYear(activeSession).Num? && StartYear(activeSession).value >= currentYear
    {
      PayDisabled(activeSession, currentYear)
    }

    /** A click on the pay button: it opens the invoice unless the button is disabled. */
    method OpenInvoice(currentYear: int) returns (shown: bool)
      requires Valid()
      modifies this`showModal
      ensures Valid()
      ensures shown == !PayDisabled(activeSession, currentYear)
      ensures showModal == (old(showModal) || shown)
    {
      shown := !PayButtonDisabled(currentYear);
      if shown {
        showModal := true;
      }
    }

    method CloseInvoice()
      requires Valid()
      modifies this`showModal
      ensures Valid()
      ensures !showModal
    {
      showModal := false;
    }

    /** The invoice is rendered only when it was opened and a fee structure is loaded. */
    function InvoiceVisible(): (visible: bool)
      reads this
      ensures visible ==> showModal && feeStructure.Some?
    {
      showModal && feeStructure.Some?
    }

    /**
     * `confirmPayment` up to the initiate request. The invoice's confirm
     * button is disabled while `initiating`, so no payment is in progress.
     */
    method ConfirmPayment(store: LocalStorage) returns (request: Option<InitiateRequest>, toast: Option<Toast>)
      requires Valid() && !initiating
      modifies this`initiating, this`flow
      ensures Valid()
      ensures !Truthy(store.GetItem(TokenKey)) ==>
        request == None && toast == Some(AuthErrorToast) && !initiating
      ensures Truthy(store.GetItem(TokenKey)) && feeStructure.None? ==>
        request == None && toast == Some(FeeNotLoadedToast) && !initiating
      ensures Truthy(store.GetItem(TokenKey)) && feeStructure.Some? ==>
        var token := store.GetItem(TokenKey).value;
        && request == Some(InitiateRequest(token, feeStructure.value.amount, activeSession))
        && toast == None && initiating
        && flow == AwaitingInitiate(token, feeStructure.value)
      ensures old(InvoiceVisible()) ==> toast != Some(FeeNotLoadedToast)
    {
      initiating := true;
      var token := store.GetItem(TokenKey);
      if !Truthy(token) {
        toast, request := Some(AuthErrorToast), None;
        initiating := false;
        return;
      }
      if feeStructure.None? {
        toast, request := Some(FeeNotLoadedToast), None;
        initiating := false;
        return;
      }
      request := Some(InitiateRequest(token.value, feeStructure.value.amount, activeSession));
      toast := None;
      flow := AwaitingInitiate(token.value, feeStructure.value);
    }

    /** The answer to the initiate request: open the widget, or give up. */
    method InitiateResolved(response: Response<PaymentIntent>) returns (widget: Option<WidgetSetup>, toast: Option<Toast>)
      requires Valid() && flow.AwaitingInitiate?
      modifies this`initiating, this`flow
      ensures Valid()
      ensures response.Ok? ==>
        var intent := response.data;
        && widget == Some(WidgetSetup(intent.publicKey, intent.email, intent.amountKobo, intent.ref))
        && toast == None && initiating
        && flow == WidgetOpen(old(flow).token, old(flow).fee, intent.ref)
      ensures response.Failed? ==>
        widget == None && toast == Some(InitiateFailedToast) && !initiating && flow == NoFlow
    {
      match response
      case Ok(intent) =>
        widget := Some(WidgetSetup(intent.publicKey, intent.email, intent.amountKobo, intent.ref));
        toast := None;
        flow := WidgetOpen(flow.token, flow.fee, intent.ref);
      case Failed(_) =>
        widget := None;
        toast := Some(InitiateFailedToast);
        initiating := false;
        flow := NoFlow;
    }

    /** The widget's `onClose`: the attempt is cancelled and nothing else changes. */
    method WidgetClosed() returns (toast: Toast)
      requires Valid() && flow.WidgetOpen?
      modifies this`initiating, this`flow
      ensures Valid()
      ensures toast == CancelledToast && !initiating && flow == NoFlow
    {
      toast := CancelledToast;
      initiating := false;
      flow := NoFlow;
    }

    /** The widget's success `callback`: close the invoice and verify the reference. */
    method WidgetCallback() returns (request: VerifyRequest)
      requires Valid() && flow.WidgetOpen?
      modifies this`showModal, this`verification, this`flow
      ensures Valid()
      ensures request == VerifyRequest(old(flow).token, old(flow).ref)
      ensures !showModal && verification == Verifying
      ensures flow == AwaitingVerify(old(flow).token, old(flow).fee, old(flow).ref)
    {
      showModal := false;
      verification := Verifying;
      request := VerifyRequest(flow.token, flow.ref);
      flow := AwaitingVerify(flow.token, flow.fee, flow.ref);
    }

    /**
     * The answer to the verify request: on success one record is prepended to
     * the history and a reset timer is armed; on failure the history is kept.
     * Either way the payment is over.
     */
    method VerifyResolved(response: Response<VerifyData>, nowId: string, today: string) returns (toast: Option<Toast>)
      requires Valid() && flow.AwaitingVerify?
      modifies this`payments, this`verification, this`pendingResets, this`initiating, this`flow
      ensures Valid()
      ensures !initiating && flow == NoFlow
      ensures response.Ok? ==>
        && payments == [NewPayment(response.data, old(flow).ref, old(flow).fee.amount, nowId, today)] + old(payments)
        && verification == Confirmed && pendingResets == old(pendingResets) + 1 && toast == None
      ensures response.Failed? ==>
        && payments == old(payments)
        && verification == Idle && pendingResets == old(pendingResets) && toast == Some(VerifyFailedToast)
    {
      match response {
        case Ok(data) =>
          var record := NewPayment(data, flow.ref, flow.fee.amount, nowId, today);
          payments := [record] + payments;
          verification := Confirmed;
          pendingResets := pendingResets + 1;
          toast := None;
        case Failed(_) =>
          toast := Some(VerifyFailedToast);
          verification := Idle;
      }
      initiating := false;
      flow := NoFlow;
    }

    /** A reset timer fires: the confirmation overlay goes away. */
    method ResetTimerFires()
      requires Valid() && pendingResets > 0
      modifies this`verification, this`pendingResets
      ensures Valid()
      ensures verification == Idle && pendingResets == old(pendingResets) - 1
    {
      verification := Idle;
      pendingResets := pendingResets - 1;
    }
  }

  /**
   * One payment from a fresh dashboard with a stored token and an empty
   * history, every answer successful: the initiate request carries the fee
   * amount and the initial session, exactly one record is added, and the
   * verification state goes verifying, success, idle.
   */
  method SuccessfulPayment(token: string, fee: FeeStructure, intent: PaymentIntent, data: VerifyData,
                           nowId: string, today: string)
    returns (request: InitiateRequest, history: seq<Payment>, states: seq<VerificationState>)
    requires token != ""
    ensures request == InitiateRequest(token, fee.amount, InitialSession)
    ensures history == [NewPayment(data, intent.ref, fee.amount, nowId, today)]
    ensures states == [Verifying, Confirmed, Idle]
  {
    var store := new LocalStorage(map[TokenKey := token]);
    assert Truthy(store.GetItem(TokenKey));
    var page := new DashboardPage();
    var _ := page.FetchHistory(store, Ok([]));
    assert page.payments == [] && page.activeSession == InitialSession;
    var _ := page.FetchFeeStructure(store, Ok(fee));
    assert page.feeStructure == Some(fee);
    assert !page.initiating && page.flow == NoFlow;
    assert page.Valid();
    var sent, _ := page.ConfirmPayment(store);
    assert sent == Some(InitiateRequest(token, fee.amount, InitialSession));
    assert page.flow == AwaitingInitiate(token, fee) && page.payments == [];
    request := sent.value;
    var _, _ := page.InitiateResolved(Ok(intent));
    assert page.flow == WidgetOpen(token, fee, intent.ref);
    var _ := page.WidgetCallback();
    assert page.flow == AwaitingVerify(token, fee, intent.ref) && page.payments == [];
    states := [page.verification];
    var _ := page.VerifyResolved(Ok(data), nowId, today);
    assert page.payments == [NewPayment(data, intent.ref, fee.amount, nowId, today)];
    states := states + [page.verification];
    page.ResetTimerFires();
    states := states + [page.verification];
    history := page.payments;
  }
}
