/**
 * The storefront checkout endpoint: opening a checkout session (refused
 * before presale starts and after it ends), adding lines to the cart
 * through an asynchronous task submitted with one retry, and turning the
 * task's state into an `ok`, `error` or `pending` answer.
 *
 * The celery queue is abstract: a submission either hands back the celery task's
 * current state or fails to reach the broker. `time_machine_now()` is the
 * `TimeMachine.Clock` of the request; the random cart id is a parameter.
 */
module Checkout {
  import opened Wrappers
  import TimeMachine

  type Instant = TimeMachine.Instant

  // ---------------------------------------------------------------------
  // Sessions

  datatype CheckoutSession = CheckoutSession(
    cartId: string,
    salesChannel: string,
    testmode: bool,
    sessionData: map<string, string>,
    invoiceAddress: Option<nat>)

  /** The event attributes the endpoint reads. */
  datatype Event = Event(
    organizer: string,
    slug: string,
    pk: nat,
    presaleStart: Option<Instant>,
    presaleHasEnded: bool,
    testmode: bool)

  /** `error_messages["not_started"]` and `error_messages["ended"]`, raised as validation errors. */
  datatype PresaleError = NotStarted | Ended

  /** The presale checks of `create`, in source order: not started before ended. */
  function PresaleCheck(event: Event, now: Instant): (r: Option<PresaleError>)
    ensures r == Some(NotStarted) <==> event.presaleStart.Some? && now < event.presaleStart.value
    ensures r == Some(Ended) <==>
      !(event.presaleStart.Some? && now < event.presaleStart.value) && event.presaleHasEnded
    ensures r.None? <==> !(event.presaleStart.Some? && now < event.presaleStart.value) && !event.presaleHasEnded
  {
    if event.presaleStart.Some? && now < event.presaleStart.value then Some(NotStarted)
    else if event.presaleHasEnded then Some(Ended)
    else None
  }

  const HttpOk := 200
  const HttpCreated := 201
  const HttpAccepted := 202
  const HttpConflict := 409

  /** The checkout sessions of one event. */
  class SessionStore {
    var sessions: seq<CheckoutSession>

    constructor ()
      ensures sessions == []
    {
      sessions := [];
    }

    /** The event's session with this cart id; the endpoints answer 404 when there is none. */
    function Lookup(cartId: string): (r: Option<CheckoutSession>)
      reads this
      ensures r.Some? ==> r.value in sessions && r.value.cartId == cartId
      ensures r.None? ==> forall i :: 0 <= i < |sessions| ==> sessions[i].cartId != cartId
    {
      FindSession(sessions, cartId)
    }

    /**
     * `CheckoutViewSet.create`: refused by the presale checks; otherwise a
     * new session in the event's test mode, answered with 201.
     */
    method Create(event: Event, clock: TimeMachine.Clock, wallClock: Instant, cartId: string, salesChannel: string)
      returns (r: Result<(CheckoutSession, int), PresaleError>)
      modifies this
      ensures var check := PresaleCheck(event, clock.Now(TimeMachine.WallClock, wallClock).value);
        && (check.Some? ==> r == Err(check.value) && sessions == old(sessions))
        && (check.None? ==>
              && r.Ok?
              && r.value == (CheckoutSession(cartId, salesChannel, event.testmode, map[], None), HttpCreated)
              && sessions == old(sessions) + [r.value.0])
    {
      var now := clock.Now(TimeMachine.WallClock, wallClock).value;
      if event.presaleStart.Some? && now < event.presaleStart.value {
        return Err(NotStarted);
      }
      if event.presaleHasEnded {
        return Err(Ended);
      }
      var cs := CheckoutSession(cartId, salesChannel, event.testmode, map[], None);
      sessions := sessions + [cs];
      r := Ok((cs, HttpCreated));
    }
  }

  function FindSession(sessions: seq<CheckoutSession>, cartId: string): (r: Option<CheckoutSession>)
    ensures r.Some? ==> r.value in sessions && r.value.cartId == cartId
    ensures r.None? ==> forall i :: 0 <= i < |sessions| ==> sessions[i].cartId != cartId
  {
    if sessions == [] then None
    else if sessions[0].cartId == cartId then Some(sessions[0])
    else FindSession(sessions[1..], cartId)
  }

  // ---------------------------------------------------------------------
  // Task results

  /**
   * `res.info` of a finished task: an exception object (its class name and
   * `str()`), a dictionary (as a serialized exception arrives), or any
   * other value, whose class is neither of the expected error classes.
   */
  datatype Info =
    | Raised(className: string, text: string)
    | Dict(entries: map<string, string>)
    | Other

  /** The state of an `AsyncResult`. */
  datatype TaskState = TaskState(id: string, ready: bool, successful: bool, info: Info)

  /** The `task_status` route a pending answer points to. */
  datatype CheckUrl = CheckUrl(organizer: string, event: string, cartId: string, asyncId: string)

  /** The three answers about a task, with their `status` field. */
  datatype AsyncAnswer =
    | AsyncOk(session: CheckoutSession)   // `"ok"`
    | AsyncError(message: string)         // `"error"`
    | AsyncPending(checkUrl: CheckUrl)    // `"pending"`
  {
    function Status(): string {
      match this
      case AsyncOk(_) => "ok"
      case AsyncError(_) => "error"
      case AsyncPending(_) => "pending"
    }

    function HttpStatus(): int {
      match this
      case AsyncOk(_) => HttpOk
      case AsyncError(_) => HttpConflict
      case AsyncPending(_) => HttpAccepted
    }
  }

  const GenericErrorMessage := "An unexpected error has occurred, please try again later."

  /** The failures the endpoint does not turn into an answer. */
  datatype Failure =
    | NotFound                // `get_object_or_404`
    | MissingKey(key: string) // a `KeyError` reading a dictionary `info`
    | BrokerUnreachable       // the second `ConnectionError` of `_do_async`

  /** The exception classes whose messages are shown to the customer. */
  predicate Expected(name: string) {
    name == "OrderError" || name == "CartError"
  }

  /**
   * `_async_error`'s message: an expected error's own message, whether it
   * arrives as a dictionary or as the exception itself; the generic message
   * otherwise. A dictionary without `exc_type`, or with an expected type but
   * no `exc_message`, fails on the lookup.
   */
  function ErrorMessage(info: Info): (r: Result<string, Failure>)
    ensures info.Raised? ==> r == Ok(if Expected(info.className) then info.text else GenericErrorMessage)
    ensures info.Other? ==> r == Ok(GenericErrorMessage)
    ensures info.Dict? && "exc_type" !in info.entries ==> r == Err(MissingKey("exc_type"))
    ensures info.Dict? && "exc_type" in info.entries && !Expected(info.entries["exc_type"]) ==> r == Ok(GenericErrorMessage)
    ensures info.Dict? && "exc_type" in info.entries && Expected(info.entries["exc_type"]) ==>
      r == if "exc_message" in info.entries then Ok(info.entries["exc_message"]) else Err(MissingKey("exc_message"))
  {
    match info
    case Dict(entries) =>
      if "exc_type" !in entries then Err(MissingKey("exc_type"))
      else if Expected(entries["exc_type"]) then
        if "exc_message" in entries then Ok(entries["exc_message"]) else Err(MissingKey("exc_message"))
      else Ok(GenericErrorMessage)
    case Raised(className, text) => Ok(if Expected(className) then text else GenericErrorMessage)
    case Other => Ok(GenericErrorMessage)
  }

  /** Whether a finished task counts as a success: it succeeded and its result is not an exception. */
  predicate Succeeded(res: TaskState) {
    res.successful && !res.info.Raised?
  }

  /** The branch shared by `task_status` and `_do_async`. */
  function Answer(res: TaskState, cs: CheckoutSession, organizer: string, event: string): (r: Result<AsyncAnswer, Failure>)
    ensures r.Ok? && r.value.Status() == "ok" <==> res.ready && Succeeded(res)
    ensures r.Ok? && r.value.Status() == "pending" <==> !res.ready
    ensures r.Ok? && r.value.Status() == "error" <==> res.ready && !Succeeded(res) && ErrorMessage(res.info).Ok?
    ensures r.Err? <==> res.ready && !Succeeded(res) && ErrorMessage(res.info).Err?
    ensures r.Ok? && r.value.AsyncOk? ==> r.value.session == cs
    ensures r.Ok? && r.value.AsyncPending? ==> r.value.checkUrl == CheckUrl(organizer, event, cs.cartId, res.id)
    ensures r.Ok? && r.value.AsyncError? ==> r.value.message == ErrorMessage(res.info).value
    ensures r.Err? ==> r == Err(ErrorMessage(res.info).error)
  {
    if res.ready then
      if Succeeded(res) then Ok(AsyncOk(cs))
      else match ErrorMessage(res.info)
        case Ok(message) => Ok(AsyncError(message))
        case Err(e) => Err(e)
    else Ok(AsyncPending(CheckUrl(organizer, event, cs.cartId, res.id)))
  }

  /** The status text and the HTTP code always go together. */
  lemma StatusAndCode(a: AsyncAnswer)
    ensures a.Status() == "ok" <==> a.HttpStatus() == HttpOk
    ensures a.Status() == "error" <==> a.HttpStatus() == HttpConflict
    ensures a.Status() == "pending" <==> a.HttpStatus() == HttpAccepted
  {
  }

  /** An error answer from an unexpected exception never shows the exception's text. */
  lemma UnexpectedErrorsAreGeneric(res: TaskState, cs: CheckoutSession, organizer: string, event: string)
    requires res.ready && !Succeeded(res) && res.info.Raised? && !Expected(res.info.className)
    ensures Answer(res, cs, organizer, event) == Ok(AsyncError(GenericErrorMessage))
  {
  }

  /**
   * Only an expected error's own message reaches the customer: any other
   * message than the generic one comes from an `OrderError` or `CartError`.
   */
  lemma ShownMessagesAreExpected(info: Info, m: string)
    requires ErrorMessage(info) == Ok(m) && m != GenericErrorMessage
    ensures || (info.Raised? && Expected(info.className) && m == info.text)
            || (info.Dict? && "exc_type" in info.entries && Expected(info.entries["exc_type"])
                && "exc_message" in info.entries && m == info.entries["exc_message"])
  {
  }

  /** `task_status`: the session must exist; then the celery task's answer. */
  method TaskStatus(store: SessionStore, cartId: string, res: TaskState, organizer: string, event: string)
    returns (r: Result<AsyncAnswer, Failure>)
    ensures store.Lookup(cartId).None? ==> r == Err(NotFound)
    ensures store.Lookup(cartId).Some? ==> r == Answer(res, store.Lookup(cartId).value, organizer, event)
  {
    var cs := store.Lookup(cartId);
    if cs.None? {
      return Err(NotFound);
    }
    r := Answer(res, cs.value, organizer, event);
  }

  // ---------------------------------------------------------------------
  // Submitting a task

  /** One `apply_async` call: it reaches the broker and hands back a result, or raises `ConnectionError`. */
  datatype Submission = Submitted(state: TaskState) | ConnectionFailed

  /**
   * `_do_async`: submit, and submit once more if the first attempt could
   * not reach the broker; a second failure propagates. `attempts` is the
   * number of `apply_async` calls made.
   */
  method DoAsync(first: Submission, second: Submission, cs: CheckoutSession, organizer: string, event: string)
    returns (r: Result<AsyncAnswer, Failure>, attempts: nat)
    ensures attempts == if first.ConnectionFailed? then 2 else 1
    ensures first.Submitted? ==> r == Answer(first.state, cs, organizer, event)
    ensures first.ConnectionFailed? && second.Submitted? ==> r == Answer(second.state, cs, organizer, event)
    ensures first.ConnectionFailed? && second.ConnectionFailed? ==> r == Err(BrokerUnreachable)
  {
    var outcome := first;
    attempts := 1;
    if outcome.ConnectionFailed? {
      outcome := second;
      attempts := attempts + 1;
    }
    if outcome.ConnectionFailed? {
      return Err(BrokerUnreachable), attempts;
    }
    r := Answer(outcome.state, cs, organizer, event);
  }

  // ---------------------------------------------------------------------
  // Adding to the cart

  /** One posted cart line; `count` is `None` when left out. */
  datatype LineInput = LineInput(item: int, variation: Option<int>, subevent: Option<int>, count: Option<int>,
                                 seat: Option<string>, price: Option<int>, voucher: Option<string>)

  /** A validated cart line. */
  datatype CartLine = CartLine(item: int, variation: Option<int>, subevent: Option<int>, count: int,
                               seat: Option<string>, price: Option<int>, voucher: Option<string>)

  /** `CartAddLineSerializer`: a missing `count` means one. */
  function ValidateLine(l: LineInput): (r: CartLine)
    ensures r.count == l.count.GetOr(1)
    ensures r.item == l.item && r.variation == l.variation && r.subevent == l.subevent
    ensures r.seat == l.seat && r.price == l.price && r.voucher == l.voucher
  {
    CartLine(l.item, l.variation, l.subevent, l.count.GetOr(1), l.seat, l.price, l.voucher)
  }

  /** The positional arguments of the `add_items_to_cart` task. */
  datatype AddItemsArgs = AddItemsArgs(
    eventPk: nat,
    lines: seq<CartLine>,
    cartId: string,
    locale: string,
    invoiceAddress: Option<nat>,
    salesChannel: string,
    overrideNow: Option<Instant>)

  /**
   * `add_to_cart`: the session must exist; the lines (none when the
   * request has no `lines`) are validated and handed to the celery task, with the
   * time machine's time only when one is set (`time_machine_now(default=None)`).
   * The response is the answer of the submission that reached the broker.
   */
  method AddToCart(
    store: SessionStore, event: Event, clock: TimeMachine.Clock, wallClock: Instant, locale: string,
    cartId: string, lines: Option<seq<LineInput>>, first: Submission, second: Submission)
    returns (r: Result<AsyncAnswer, Failure>, args: Option<AddItemsArgs>)
    ensures store.Lookup(cartId).None? ==> r == Err(NotFound) && args.None?
    ensures store.Lookup(cartId).Some? ==>
      var cs := store.Lookup(cartId).value;
      var posted := lines.GetOr([]);
      && args.Some?
      && args.value.eventPk == event.pk && args.value.cartId == cs.cartId
      && args.value.salesChannel == cs.salesChannel && args.value.invoiceAddress == cs.invoiceAddress
      && args.value.locale == locale
      && args.value.overrideNow == clock.override
      && |args.value.lines| == |posted|
      && (forall i :: 0 <= i < |posted| ==> args.value.lines[i] == ValidateLine(posted[i]))
      && (first.Submitted? ==> r == Answer(first.state, cs, event.organizer, event.slug))
      && (first.ConnectionFailed? && second.Submitted? ==> r == Answer(second.state, cs, event.organizer, event.slug))
      && (first.ConnectionFailed? && second.ConnectionFailed? ==> r == Err(BrokerUnreachable))
  {
    var found := store.Lookup(cartId);
    if found.None? {
      return Err(NotFound), None;
    }
    var cs := found.value;
    var posted := lines.GetOr([]);
    var validated := seq(|posted|, i requires 0 <= i < |posted| => ValidateLine(posted[i]));
    var taskArgs := AddItemsArgs(event.pk, validated, cs.cartId, locale, cs.invoiceAddress, cs.salesChannel,
                                 clock.Now(TimeMachine.Given(None), wallClock));
    args := Some(taskArgs);
    var attempts;
    r, attempts := DoAsync(first, second, cs, event.organizer, event.slug);
  }
}
