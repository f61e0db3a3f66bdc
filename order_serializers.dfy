/**
 * The order API serializers: creating an order from validated request data
 * (its total, the free-order rule, one position per input position, one fee
 * per input fee), the download links of an order and of a position, the
 * country of an invoice address, and the invoice-address fields.
 *
 * Money is in cents. Saving to the database is the state of an `Order`
 * object; the transaction that wraps `create` is modelled by returning an
 * error instead of an order when a step fails.
 */
module OrderSerializers {
  import opened Wrappers

  // ---------------------------------------------------------------------
  // Creating an order

  /** `Order.STATUS_PENDING` (`'n'`), `STATUS_PAID` (`'p'`), `STATUS_EXPIRED` (`'e'`), `STATUS_CANCELED` (`'c'`). */
  datatype Status = Pending | Paid | Expired | Canceled

  datatype Address = Address(company: string, name: string, street: string, zipcode: string, city: string, country: string)

  /**
   * One validated position. `subevent` and `answers` are `None` when the
   * request left the optional key out; a `subevent` sent as `null` is
   * `Some(None)`.
   */
  datatype PositionData = PositionData(
    item: int,
    price: int,
    attendeeName: string,
    addonTo: Option<nat>,
    subevent: Option<Option<nat>>,
    answers: Option<seq<string>>)

  /** The optional keys of a position that `create` reads. */
  datatype PositionKey = SubeventKey | AnswersKey

  predicate HasKey(p: PositionData, key: PositionKey) {
    match key
    case SubeventKey => p.subevent.Some?
    case AnswersKey => p.answers.Some?
  }

  datatype FeeData = FeeData(feeType: string, value: int)

  /**
   * The validated request. `positions`, `fees` and `invoiceAddress` are
   * `None` when left out (they are optional); `status` has its default `'n'`
   * filled in.
   */
  datatype OrderData = OrderData(
    status: Status,
    paymentProvider: string,
    positions: Option<seq<PositionData>>,
    fees: Option<seq<FeeData>>,
    invoiceAddress: Option<Address>)

  /** A created position: the position data without its answers; a left-out subevent is stored as `null`. */
  datatype PositionRecord = PositionRecord(item: int, price: int, attendeeName: string, addonTo: Option<nat>, subevent: Option<nat>)

  function Record(p: PositionData): PositionRecord {
    PositionRecord(p.item, p.price, p.attendeeName, p.addonTo, p.subevent.GetOr(None))
  }

  function Records(ps: seq<PositionData>): (r: seq<PositionRecord>)
    ensures |r| == |ps| && forall i :: 0 <= i < |ps| ==> r[i] == Record(ps[i])
  {
    seq(|ps|, i requires 0 <= i < |ps| => Record(ps[i]))
  }

  function PriceSum(ps: seq<PositionData>): int {
    if ps == [] then 0 else PriceSum(ps[..|ps| - 1]) + ps[|ps| - 1].price
  }

  function FeeSum(fs: seq<FeeData>): int {
    if fs == [] then 0 else FeeSum(fs[..|fs| - 1]) + fs[|fs| - 1].value
  }

  /** The order total: all position prices plus all fee values. */
  function Total(data: OrderData): int {
    PriceSum(data.positions.GetOr([])) + FeeSum(data.fees.GetOr([]))
  }

  /** Prices add up over concatenation, so the total does not depend on how the positions are split. */
  lemma {:induction false} PriceSumAppend(ps: seq<PositionData>, qs: seq<PositionData>)
    ensures PriceSum(ps + qs) == PriceSum(ps) + PriceSum(qs)
    decreases |qs|
  {
    if qs != [] {
      var init := qs[..|qs| - 1];
      assert (ps + qs)[..|ps + qs| - 1] == ps + init;
      PriceSumAppend(ps, init);
    } else {
      assert ps + qs == ps;
    }
  }

  lemma {:induction false} FeeSumAppend(fs: seq<FeeData>, gs: seq<FeeData>)
    ensures FeeSum(fs + gs) == FeeSum(fs) + FeeSum(gs)
    decreases |gs|
  {
    if gs != [] {
      var init := gs[..|gs| - 1];
      assert (fs + gs)[..|fs + gs| - 1] == fs + init;
      FeeSumAppend(fs, init);
    } else {
      assert fs + gs == fs;
    }
  }

  /** Free positions and free fees contribute nothing: all prices and values zero give a zero total. */
  lemma {:induction false} AllFreeTotalZero(ps: seq<PositionData>, fs: seq<FeeData>)
    requires forall i :: 0 <= i < |ps| ==> ps[i].price == 0
    requires forall i :: 0 <= i < |fs| ==> fs[i].value == 0
    ensures PriceSum(ps) + FeeSum(fs) == 0
    decreases |ps| + |fs|
  {
    if ps != [] {
      AllFreeTotalZero(ps[..|ps| - 1], fs);
    } else if fs != [] {
      AllFreeTotalZero(ps, fs[..|fs| - 1]);
    }
  }

  /**
   * The free-order rule: a zero total that was not already requested as
   * paid is marked paid with provider `"free"`; otherwise the requested
   * status and provider stay.
   */
  function Settle(requested: Status, provider: string, total: int): (r: (Status, string))
    ensures r.0 == Paid <==> requested == Paid || total == 0
    ensures r.0 != Paid ==> r.0 == requested
    ensures r.1 == (if total == 0 && requested != Paid then "free" else provider)
  {
    if total == 0 && requested != Paid then (Paid, "free") else (requested, provider)
  }

  /** An order as saved, with the positions, fees and address attached to it. */
  class Order {
    var status: Status
    var paymentProvider: string
    var total: int
    var positions: seq<PositionRecord>
    var fees: seq<FeeData>
    var invoiceAddress: Option<Address>

    /** `Order(event=..., **validated_data)`, before the total is computed. */
    constructor (status: Status, paymentProvider: string)
      ensures this.status == status && this.paymentProvider == paymentProvider
      ensures total == 0 && positions == [] && fees == [] && invoiceAddress == None
    {
      this.status := status;
      this.paymentProvider := paymentProvider;
      total := 0;
      positions := [];
      fees := [];
      invoiceAddress := None;
    }

    /** `order.positions.create(**pos_data)`. */
    method AddPosition(p: PositionRecord)
      modifies this
      ensures positions == old(positions) + [p]
      ensures status == old(status) && paymentProvider == old(paymentProvider) && total == old(total)
      ensures fees == old(fees) && invoiceAddress == old(invoiceAddress)
    {
      positions := positions + [p];
    }

    /** `order.fees.create(**fee_data)`. */
    method AddFee(f: FeeData)
      modifies this
      ensures fees == old(fees) + [f]
      ensures status == old(status) && paymentProvider == old(paymentProvider) && total == old(total)
      ensures positions == old(positions) && invoiceAddress == old(invoiceAddress)
    {
      fees := fees + [f];
    }
  }

  /** The `KeyError`s `create` can raise; the surrounding transaction then saves nothing. */
  datatype CreateError =
    | MissingInvoiceAddress       // `validated_data.pop('invoice_address')`
    | MissingSubevent(index: nat) // `p['subevent']` for the expiry date
    | MissingAnswers(index: nat)  // `del pos_data['answers']`

  /** The index of the first position without the key, if any. */
  function FirstLacking(ps: seq<PositionData>, key: PositionKey): (r: Option<nat>)
    ensures r.None? <==> forall i :: 0 <= i < |ps| ==> HasKey(ps[i], key)
    ensures r.Some? ==>
      && r.value < |ps| && !HasKey(ps[r.value], key)
      && forall i :: 0 <= i < r.value ==> HasKey(ps[i], key)
  {
    if ps == [] then None
    else if !HasKey(ps[0], key) then Some(0)
    else match FirstLacking(ps[1..], key)
      case None => None
      case Some(k) => Some(k + 1)
  }

  /**
   * Whether `create` as written fails on `data`, and with which error: the
   * invoice address is read first, then every position's subevent, and only
   * then is any position's answers key deleted.
   */
  function CreateFailure(data: OrderData): Option<CreateError> {
    var ps := data.positions.GetOr([]);
    if data.invoiceAddress.None? then Some(MissingInvoiceAddress)
    else match FirstLacking(ps, SubeventKey)
      case Some(k) => Some(MissingSubevent(k))
      case None =>
        match FirstLacking(ps, AnswersKey)
        case Some(k) => Some(MissingAnswers(k))
        case None => None
  }

  /**
   * `OrderCreateSerializer.create` as written: the invoice address, every
   * position's subevent and every position's answers are taken out with
   * lookups that fail when the optional key is absent.
   */
  method CreateOrder(data: OrderData) returns (r: Result<Order, CreateError>)
    ensures r.Err? <==> CreateFailure(data).Some?
    ensures r.Err? ==> r.error == CreateFailure(data).value
    ensures r.Ok? ==> fresh(r.value)
    ensures r.Ok? ==>
      && r.value.total == Total(data)
      && (r.value.status, r.value.paymentProvider) == Settle(data.status, data.paymentProvider, Total(data))
      && r.value.positions == Records(data.positions.GetOr([]))
      && r.value.fees == data.fees.GetOr([])
      && r.value.invoiceAddress == data.invoiceAddress
  {
    var feesData := data.fees.GetOr([]);
    var positionsData := data.positions.GetOr([]);
    if data.invoiceAddress.None? {
      return Err(MissingInvoiceAddress);
    }
    // The subevents handed to `set_expires`; the expiry date itself is not modelled.
    var subevents: seq<Option<nat>> := [];
    var s := 0;
    while s < |positionsData|
      invariant 0 <= s <= |positionsData| && |subevents| == s
      invariant forall k :: 0 <= k < s ==> HasKey(positionsData[k], SubeventKey) && subevents[k] == positionsData[k].subevent.value
    {
      if positionsData[s].subevent.None? {
        return Err(MissingSubevent(s));
      }
      subevents := subevents + [positionsData[s].subevent.value];
      s := s + 1;
    }
    var order := new Order(data.status, data.paymentProvider);
    order.total := PriceSum(positionsData) + FeeSum(feesData);
    if order.total == 0 && data.status != Paid {
      order.paymentProvider := "free";
      order.status := Paid;
    }
    order.invoiceAddress := data.invoiceAddress;
    var i := 0;
    while i < |positionsData|
      invariant 0 <= i <= |positionsData|
      invariant forall k :: 0 <= k < i ==> HasKey(positionsData[k], AnswersKey)
      invariant order.positions == Records(positionsData[..i])
      invariant order.total == Total(data) && order.fees == []
      invariant (order.status, order.paymentProvider) == Settle(data.status, data.paymentProvider, Total(data))
      invariant order.invoiceAddress == data.invoiceAddress
    {
      if positionsData[i].answers.None? {
        return Err(MissingAnswers(i));
      }
      order.AddPosition(Record(positionsData[i]));
      i := i + 1;
    }
    assert positionsData[..i] == positionsData;
    var j := 0;
    while j < |feesData|
      invariant 0 <= j <= |feesData|
      invariant order.positions == Records(positionsData)
      invariant order.fees == feesData[..j]
      invariant order.total == Total(data)
      invariant (order.status, order.paymentProvider) == Settle(data.status, data.paymentProvider, Total(data))
      invariant order.invoiceAddress == data.invoiceAddress
    {
      order.AddFee(feesData[j]);
      j := j + 1;
    }
    assert feesData[..j] == feesData;
    r := Ok(order);
  }

  /** A request without an invoice address is turned down by `create` as written, although the field is optional. */
  lemma MissingAddressFails(status: Status, provider: string)
    ensures CreateFailure(OrderData(status, provider, None, None, None)) == Some(MissingInvoiceAddress)
  {
  }

  /** A position posted without a subevent is turned down by `create` as written, although the subevent is optional. */
  lemma MissingSubeventFails(a: Address, p: PositionData)
    requires p.subevent.None?
    ensures CreateFailure(OrderData(Pending, "manual", Some([p]), None, Some(a))) == Some(MissingSubevent(0))
  {
  }

  /**
   * A position posted with a subevent but without answers is turned down by
   * `create` as written, although answers are optional.
   */
  lemma MissingAnswersFails(a: Address, p: PositionData)
    requires p.subevent.Some? && p.answers.None?
    ensures CreateFailure(OrderData(Pending, "manual", Some([p]), None, Some(a))) == Some(MissingAnswers(0))
  {
  }

  /**
   * `create` with the optional keys read optionally: no address is attached
   * when none was given, a left-out subevent is taken as `null`, and answers
   * are dropped whether or not they were sent. It cannot fail.
   */
  method CreateOrderFixed(data: OrderData) returns (order: Order)
    ensures fresh(order)
    ensures order.total == Total(data)
    ensures (order.status, order.paymentProvider) == Settle(data.status, data.paymentProvider, Total(data))
    ensures order.positions == Records(data.positions.GetOr([]))
    ensures order.fees == data.fees.GetOr([])
    ensures order.invoiceAddress == data.invoiceAddress
  {
    var feesData := data.fees.GetOr([]);
    var positionsData := data.positions.GetOr([]);
    order := new Order(data.status, data.paymentProvider);
    order.total := PriceSum(positionsData) + FeeSum(feesData);
    if order.total == 0 && data.status != Paid {
      order.paymentProvider := "free";
      order.status := Paid;
    }
    order.invoiceAddress := data.invoiceAddress;
    var i := 0;
    while i < |positionsData|
      invariant 0 <= i <= |positionsData|
      invariant order.positions == Records(positionsData[..i])
      invariant order.total == Total(data) && order.fees == []
      invariant (order.status, order.paymentProvider) == Settle(data.status, data.paymentProvider, Total(data))
      invariant order.invoiceAddress == data.invoiceAddress
    {
      order.AddPosition(Record(positionsData[i]));
      i := i + 1;
    }
    assert positionsData[..i] == positionsData;
    var j := 0;
    while j < |feesData|
      invariant 0 <= j <= |feesData|
      invariant order.positions == Records(positionsData)
      invariant order.fees == feesData[..j]
      invariant order.total == Total(data)
      invariant (order.status, order.paymentProvider) == Settle(data.status, data.paymentProvider, Total(data))
      invariant order.invoiceAddress == data.invoiceAddress
    {
      order.AddFee(feesData[j]);
      j := j + 1;
    }
    assert feesData[..j] == feesData;
  }

  // ---------------------------------------------------------------------
  // Download links

  /** A ticket output provider as the `register_ticket_outputs` signal returns it. */
  datatype Provider = Provider(identifier: string, isEnabled: bool)

  /** The API route a download link points to (the URL's text is the router's business). */
  datatype DownloadUrl =
    | OrderDownload(organizer: string, event: string, code: string, output: string)
    | PositionDownload(organizer: string, event: string, pk: nat, output: string)

  datatype Download = Download(output: string, url: DownloadUrl)

  /** The identifiers of the enabled providers, in signal order. */
  function EnabledOutputs(providers: seq<Provider>): (r: seq<string>)
    ensures |r| <= |providers|
    ensures forall o :: o in r <==> exists p :: p in providers && p.isEnabled && p.identifier == o
    decreases |providers|
  {
    if providers == [] then []
    else
      var init := providers[..|providers| - 1];
      var last := providers[|providers| - 1];
      assert providers == init + [last];
      EnabledOutputs(init) + if last.isEnabled then [last.identifier] else []
  }

  /**
   * The filter keeps signal order and multiplicity: the outputs of a
   * concatenation are the outputs of its first part followed by those of
   * its second part.
   */
  lemma {:induction false} EnabledOutputsAppend(a: seq<Provider>, b: seq<Provider>)
    ensures EnabledOutputs(a + b) == EnabledOutputs(a) + EnabledOutputs(b)
    decreases |b|
  {
    if b == [] {
      assert a + b == a;
    } else {
      var init := b[..|b| - 1];
      assert (a + b)[..|a + b| - 1] == a + init;
      assert (a + b)[|a + b| - 1] == b[|b| - 1];
      EnabledOutputsAppend(a, init);
    }
  }

  /** A single provider contributes its identifier, once, exactly when it is enabled. */
  lemma EnabledOutputsOne(p: Provider)
    ensures EnabledOutputs([p]) == if p.isEnabled then [p.identifier] else []
  {
    assert [p][..0] == [];
  }

  /** The providers' enabled flags, in signal order. */
  function EnabledFlags(providers: seq<Provider>): (r: seq<bool>)
    ensures |r| == |providers| && forall i :: 0 <= i < |providers| ==> r[i] == providers[i].isEnabled
  {
    seq(|providers|, i requires 0 <= i < |providers| => providers[i].isEnabled)
  }

  /** There is one output per enabled provider. */
  lemma {:induction false} EnabledOutputsCount(providers: seq<Provider>)
    ensures |EnabledOutputs(providers)| == multiset(EnabledFlags(providers))[true]
    decreases |providers|
  {
    if providers != [] {
      var init := providers[..|providers| - 1];
      var last := providers[|providers| - 1];
      assert EnabledFlags(providers) == EnabledFlags(init) + [last.isEnabled];
      EnabledOutputsCount(init);
    }
  }

  /** The loop both download fields share: one link per enabled provider, in signal order. */
  method EnabledDownloads(providers: seq<Provider>, urlFor: string -> DownloadUrl) returns (res: seq<Download>)
    ensures |res| == |EnabledOutputs(providers)| == multiset(EnabledFlags(providers))[true]
    ensures forall k :: 0 <= k < |res| ==>
      res[k].output == EnabledOutputs(providers)[k] && res[k].url == urlFor(res[k].output)
  {
    EnabledOutputsCount(providers);
    res := [];
    var i := 0;
    while i < |providers|
      invariant 0 <= i <= |providers|
      invariant |res| == |EnabledOutputs(providers[..i])|
      invariant forall k :: 0 <= k < |res| ==>
        res[k].output == EnabledOutputs(providers[..i])[k] && res[k].url == urlFor(res[k].output)
    {
      assert providers[..i + 1][..i] == providers[..i];
      var provider := providers[i];
      if provider.isEnabled {
        res := res + [Download(provider.identifier, urlFor(provider.identifier))];
      }
      i := i + 1;
    }
    assert providers[..i] == providers;
  }

  /** `OrderDownloadsField.to_representation`: nothing unless the order is paid. */
  method OrderDownloads(status: Status, organizer: string, event: string, code: string, providers: seq<Provider>)
    returns (res: seq<Download>)
    ensures status != Paid ==> res == []
    ensures status == Paid ==>
      && |res| == |EnabledOutputs(providers)|
      && forall k :: 0 <= k < |res| ==>
           res[k] == Download(EnabledOutputs(providers)[k], OrderDownload(organizer, event, code, EnabledOutputs(providers)[k]))
  {
    if status != Paid {
      return [];
    }
    res := EnabledDownloads(providers, output => OrderDownload(organizer, event, code, output));
  }

  /** The event settings the position gate reads. */
  datatype DownloadSettings = DownloadSettings(ticketDownloadAddons: bool, ticketDownloadNonadm: bool)

  /**
   * The gates of `PositionDownloadsField`: a position's tickets can be
   * downloaded when its order is paid, it is not an add-on unless add-on
   * downloads are on, and its product is an admission unless non-admission
   * downloads are on.
   */
  predicate PositionDownloadable(status: Status, addonTo: Option<nat>, admission: bool, settings: DownloadSettings) {
    && status == Paid
    && (addonTo.Some? ==> settings.ticketDownloadAddons)
    && (admission || settings.ticketDownloadNonadm)
  }

  /** `PositionDownloadsField.to_representation`. */
  method PositionDownloads(
    status: Status, addonTo: Option<nat>, admission: bool, settings: DownloadSettings,
    organizer: string, event: string, pk: nat, providers: seq<Provider>)
    returns (res: seq<Download>)
    ensures !PositionDownloadable(status, addonTo, admission, settings) ==> res == []
    ensures PositionDownloadable(status, addonTo, admission, settings) ==>
      && |res| == |EnabledOutputs(providers)|
      && forall k :: 0 <= k < |res| ==>
           res[k] == Download(EnabledOutputs(providers)[k], PositionDownload(organizer, event, pk, EnabledOutputs(providers)[k]))
  {
    if status != Paid {
      return [];
    }
    if addonTo.Some? && !settings.ticketDownloadAddons {
      return [];
    }
    if !admission && !settings.ticketDownloadNonadm {
      return [];
    }
    res := EnabledDownloads(providers, output => PositionDownload(organizer, event, pk, output));
  }

  // ---------------------------------------------------------------------
  // Invoice address

  /** `CompatibleCountryField.to_representation`: the country code if set, else the free-text legacy country. */
  function CountryRepresentation(country: string, countryOld: string): (r: string)
    ensures country != "" ==> r == country
    ensures country == "" ==> r == countryOld
  {
    if country != "" then country else countryOld
  }

  /** A serializer field's two flags that the address serializer rewrites. */
  datatype FieldFlags = FieldFlags(name: string, required: bool, allowBlank: bool)

  /** `InvoiceAddressSerializer.__init__`: every field becomes optional and accepts blank input. */
  method RelaxFields(fields: seq<FieldFlags>) returns (r: seq<FieldFlags>)
    ensures |r| == |fields|
    ensures forall i :: 0 <= i < |fields| ==>
      r[i].name == fields[i].name && !r[i].required && r[i].allowBlank
  {
    r := fields;
    var i := 0;
    while i < |r|
      invariant 0 <= i <= |r| && |r| == |fields|
      invariant forall k :: 0 <= k < |fields| ==> r[k].name == fields[k].name
      invariant forall k :: 0 <= k < i ==> !r[k].required && r[k].allowBlank
    {
      r := r[i := r[i].(required := false, allowBlank := true)];
      i := i + 1;
    }
  }
}
