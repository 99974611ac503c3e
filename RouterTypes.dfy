/** The router's flow-typed data model: the envelope a payment or refund flow travels in, the
    per-flow request and response data, the wrapper for a connector's raw response, the ways
    a connector authenticates, and the normalised error shape. */
module RouterTypes {

  import opened Wrappers

  /** Rust `i32`. */
  newtype I32 = x: int | -0x8000_0000 <= x < 0x8000_0000

  /** Rust `u16`: an HTTP status code. */
  newtype U16 = x: int | 0 <= x < 0x1_0000

  // Types owned by other parts of the router; this model carries them without looking inside.
  type AttemptStatus(==)
  type Currency(==)
  type PaymentMethodType(==)
  type AuthenticationType(==)
  type CaptureMethod(==)
  type FutureUsage(==)
  type RefundStatus(==)
  type PaymentAddress(==)
  type PaymentMethod(==)
  type MandateData(==)
  type RedirectForm(==)
  type Bytes(==)

  /** The flow markers. Payments have four; every other marker the router declares (the refund
      flows among them) is told apart by its name. */
  datatype Flow = Authorize | PSync | PCapture | Void | Marker(name: string) {
    predicate IsPaymentFlow() {
      !Marker?
    }
  }

  /** The flow-specific request data, one constructor per request struct. */
  datatype Request =
    | PaymentsRequestData(
        paymentMethodData: PaymentMethod,
        confirm: bool,
        statementDescriptorSuffix: Option<string>,
        captureMethod: Option<CaptureMethod>,
        setupFutureUsage: Option<FutureUsage>,
        mandateId: Option<string>,
        offSession: Option<bool>,
        setupMandateDetails: Option<MandateData>)
    | PaymentsRequestCaptureData(amountToCapture: Option<I32>, connectorTransactionId: string)
    | PaymentsRequestSyncData(connectorTransactionId: string, encodedData: Option<string>)
    | PaymentRequestCancelData(connectorTransactionId: string, cancellationReason: Option<string>)
    | RefundsRequestData(
        refundId: string,
        paymentMethodData: PaymentMethod,
        connectorTransactionId: string,
        refundAmount: I32)

  /** The flow-specific data a connector answers with. */
  datatype ResponseData =
    | PaymentsResponseData(connectorTransactionId: string, redirectionData: Option<RedirectForm>, redirect: bool)
    | RefundsResponseData(connectorRefundId: string, refundStatus: RefundStatus)

  /** RouterData<Flow, Request, Response>: the unit of work handed to a connector. */
  datatype RouterData = RouterData(
    flow: Flow,
    merchantId: string,
    connector: string,
    paymentId: string,
    status: AttemptStatus,
    amount: I32,
    currency: Currency,
    paymentMethod: PaymentMethodType,
    connectorAuthType: ConnectorAuthType,
    description: Option<string>,
    returnUrl: Option<string>,
    address: PaymentAddress,
    authType: AuthenticationType,
    request: Request,
    response: Option<ResponseData>,
    errorResponse: Option<ErrorResponse>,
    paymentMethodId: Option<string>)

  /** The response slot, when filled, holds payments response data. */
  predicate PaymentsResponseSlot(rd: RouterData) {
    rd.response.Some? ==> rd.response.value.PaymentsResponseData?
  }

  /** The response slot, when filled, holds refunds response data. */
  predicate RefundsResponseSlot(rd: RouterData) {
    rd.response.Some? ==> rd.response.value.RefundsResponseData?
  }

  /** PaymentsRouterData = RouterData<Authorize, PaymentsRequestData, PaymentsResponseData>. */
  predicate IsPaymentsRouterData(rd: RouterData) {
    rd.flow == Authorize && rd.request.PaymentsRequestData? && PaymentsResponseSlot(rd)
  }

  /** PaymentsRouterSyncData = RouterData<PSync, PaymentsRequestSyncData, PaymentsResponseData>. */
  predicate IsPaymentsRouterSyncData(rd: RouterData) {
    rd.flow == PSync && rd.request.PaymentsRequestSyncData? && PaymentsResponseSlot(rd)
  }

  /** PaymentsRouterCaptureData = RouterData<PCapture, PaymentsRequestCaptureData, PaymentsResponseData>. */
  predicate IsPaymentsRouterCaptureData(rd: RouterData) {
    rd.flow == PCapture && rd.request.PaymentsRequestCaptureData? && PaymentsResponseSlot(rd)
  }

  /** PaymentRouterCancelData = RouterData<Void, PaymentRequestCancelData, PaymentsResponseData>. */
  predicate IsPaymentRouterCancelData(rd: RouterData) {
    rd.flow == Void && rd.request.PaymentRequestCancelData? && PaymentsResponseSlot(rd)
  }

  /** RefundsRouterData<F> = RouterData<F, RefundsRequestData, RefundsResponseData>, for any flow F. */
  predicate IsRefundsRouterData(rd: RouterData) {
    rd.request.RefundsRequestData? && RefundsResponseSlot(rd)
  }

  /** The envelope has one of the shapes the router's aliases name. */
  predicate ConformsToAlias(rd: RouterData) {
    || IsPaymentsRouterData(rd)
    || IsPaymentsRouterSyncData(rd)
    || IsPaymentsRouterCaptureData(rd)
    || IsPaymentRouterCancelData(rd)
    || IsRefundsRouterData(rd)
  }

  /** The flow a payments request is bound to by its alias; None for a refunds request, whose
      alias leaves the flow open. */
  function BoundFlow(request: Request): (f: Option<Flow>)
    ensures f.None? <==> request.RefundsRequestData?
    ensures f.Some? ==> f.value.IsPaymentFlow()
  {
    match request
    case PaymentsRequestData(_, _, _, _, _, _, _, _) => Some(Authorize)
    case PaymentsRequestSyncData(_, _) => Some(PSync)
    case PaymentsRequestCaptureData(_, _) => Some(PCapture)
    case PaymentRequestCancelData(_, _) => Some(Void)
    case RefundsRequestData(_, _, _, _) => None
  }

  /** The payments aliases are exactly the envelopes whose flow is the one their request is bound
      to and whose response slot holds payments data; the refunds alias is every envelope with a
      refunds request and a refunds response slot, whatever its flow. */
  lemma AliasesByBoundFlow(rd: RouterData)
    ensures ConformsToAlias(rd) <==>
              match BoundFlow(rd.request)
              case Some(f) => rd.flow == f && PaymentsResponseSlot(rd)
              case None => RefundsResponseSlot(rd)
  {
  }

  /** Each payment flow pairs with exactly one payments request type, and all four pair with
      PaymentsResponseData. */
  lemma PaymentFlowPairing(rd: RouterData)
    requires ConformsToAlias(rd) && !rd.request.RefundsRequestData?
    ensures rd.flow == Authorize <==> rd.request.PaymentsRequestData?
    ensures rd.flow == PSync <==> rd.request.PaymentsRequestSyncData?
    ensures rd.flow == PCapture <==> rd.request.PaymentsRequestCaptureData?
    ensures rd.flow == Void <==> rd.request.PaymentRequestCancelData?
    ensures rd.flow.IsPaymentFlow()
    ensures PaymentsResponseSlot(rd)
  {
  }

  /** Two conforming envelopes of the same payment flow carry the same kind of request. */
  lemma SameFlowSameRequest(rd1: RouterData, rd2: RouterData)
    requires ConformsToAlias(rd1) && ConformsToAlias(rd2)
    requires !rd1.request.RefundsRequestData? && !rd2.request.RefundsRequestData?
    requires rd1.flow == rd2.flow
    ensures BoundFlow(rd1.request) == BoundFlow(rd2.request)
  {
    PaymentFlowPairing(rd1);
    PaymentFlowPairing(rd2);
  }

  /** Refund envelopes are generic over the flow: with a refunds request and a refunds response
      slot, every flow marker conforms. */
  lemma RefundsAnyFlow(rd: RouterData, f: Flow)
    requires IsRefundsRouterData(rd)
    ensures ConformsToAlias(rd.(flow := f))
  {
  }

  /** ResponseRouterData<Flow, R, Request, Response>: a connector's raw response, the envelope it
      answers and the HTTP status it came with. */
  datatype ResponseRouterData<R> = ResponseRouterData(response: R, data: RouterData, httpCode: U16)

  /** PaymentsResponseRouterData<R> = ResponseRouterData<Authorize, R, PaymentsRequestData, PaymentsResponseData>. */
  predicate IsPaymentsResponseRouterData<R>(w: ResponseRouterData<R>) {
    IsPaymentsRouterData(w.data)
  }

  /** PaymentsCancelResponseRouterData<R> = ResponseRouterData<Void, R, PaymentRequestCancelData, PaymentsResponseData>. */
  predicate IsPaymentsCancelResponseRouterData<R>(w: ResponseRouterData<R>) {
    IsPaymentRouterCancelData(w.data)
  }

  /** RefundsResponseRouterData<F, R> = ResponseRouterData<F, R, RefundsRequestData, RefundsResponseData>. */
  predicate IsRefundsResponseRouterData<R>(w: ResponseRouterData<R>) {
    IsRefundsRouterData(w.data)
  }

  /** Wrapping a raw response keeps the envelope as it was, so the wrapper has the alias shape of
      the envelope it carries, and its status code is a u16. */
  lemma ResponseWrapperKeepsEnvelope<R>(raw: R, rd: RouterData, code: U16)
    ensures var w := ResponseRouterData(raw, rd, code);
      && w.response == raw && w.data == rd && 0 <= w.httpCode as int <= 65535
      && (IsPaymentsResponseRouterData(w) <==> IsPaymentsRouterData(rd))
      && (IsPaymentsCancelResponseRouterData(w) <==> IsPaymentRouterCancelData(rd))
      && (IsRefundsResponseRouterData(w) <==> IsRefundsRouterData(rd))
  {
  }

  /** The ways a connector authenticates; the configuration's `auth_type` field names the variant. */
  datatype ConnectorAuthType =
    | HeaderKey(apiKey: string)
    | BodyKey(apiKey: string, key1: string)

  /** `Default for ConnectorAuthType`: a header key that is empty. */
  function DefaultConnectorAuthType(): (a: ConnectorAuthType)
    ensures a.HeaderKey? && a.apiKey == []
  {
    HeaderKey("")
  }

  const AuthTypeField: string := "auth_type"
  const ApiKeyField: string := "api_key"
  const Key1Field: string := "key1"

  /** Why a configuration object does not decode. */
  datatype DecodeError = MissingField(field: string) | UnknownVariant(tag: string)

  /** The variant name the tag carries. */
  function VariantName(a: ConnectorAuthType): string {
    match a
    case HeaderKey(_) => "HeaderKey"
    case BodyKey(_, _) => "BodyKey"
  }

  /** The string a required field holds, or the error for its absence. */
  function RequiredField(fields: map<string, string>, name: string): (r: Result<string, DecodeError>)
    ensures r.Success? <==> name in fields
    ensures r.Success? ==> r.value == fields[name]
    ensures r.Failure? ==> r.error == MissingField(name)
  {
    if name in fields then Success(fields[name]) else Failure(MissingField(name))
  }

  /** Deserialisation of ConnectorAuthType from a configuration object, as serde does it for an
      enum tagged by `auth_type`: the tag picks the variant, then the variant's fields are read in
      declaration order; fields the variant does not declare are ignored. */
  function DecodeConnectorAuthType(fields: map<string, string>): (r: Result<ConnectorAuthType, DecodeError>)
    ensures AuthTypeField !in fields ==> r == Failure(MissingField(AuthTypeField))
    ensures AuthTypeField in fields && fields[AuthTypeField] !in {"HeaderKey", "BodyKey"} ==>
              r == Failure(UnknownVariant(fields[AuthTypeField]))
    ensures r.Success? ==> fields[AuthTypeField] == VariantName(r.value)
  {
    var tag :- RequiredField(fields, AuthTypeField);
    if tag == "HeaderKey" then
      var apiKey :- RequiredField(fields, ApiKeyField);
      Success(HeaderKey(apiKey))
    else if tag == "BodyKey" then
      var apiKey :- RequiredField(fields, ApiKeyField);
      var key1 :- RequiredField(fields, Key1Field);
      Success(BodyKey(apiKey, key1))
    else
      Failure(UnknownVariant(tag))
  }

  /** The configuration object a ConnectorAuthType is written as: the tag and the variant's
      fields, nothing else. */
  function EncodeConnectorAuthType(a: ConnectorAuthType): (fields: map<string, string>)
    ensures fields.Keys == if a.HeaderKey? then {AuthTypeField, ApiKeyField}
                           else {AuthTypeField, ApiKeyField, Key1Field}
  {
    match a
    case HeaderKey(k) => map[AuthTypeField := "HeaderKey", ApiKeyField := k]
    case BodyKey(k, k1) => map[AuthTypeField := "BodyKey", ApiKeyField := k, Key1Field := k1]
  }

  /** Every entry of `part` is in `fields` with the same value. */
  predicate Includes(fields: map<string, string>, part: map<string, string>) {
    forall name :: name in part ==> name in fields && fields[name] == part[name]
  }

  /** A configuration object that holds the encoding of a value decodes to that value, whatever
      other fields it has. */
  lemma DecodeComplete(a: ConnectorAuthType, fields: map<string, string>)
    requires Includes(fields, EncodeConnectorAuthType(a))
    ensures DecodeConnectorAuthType(fields) == Success(a)
  {
    var e := EncodeConnectorAuthType(a);
    assert AuthTypeField in e && ApiKeyField in e;
    if a.BodyKey? {
      assert Key1Field in e;
    }
  }

  /** A value decodes only from an object that holds its encoding: the decoded value is fixed by
      the tag and the variant's own fields. */
  lemma DecodeSound(fields: map<string, string>)
    requires DecodeConnectorAuthType(fields).Success?
    ensures Includes(fields, EncodeConnectorAuthType(DecodeConnectorAuthType(fields).value))
  {
    var a := DecodeConnectorAuthType(fields).value;
    assert fields[AuthTypeField] == VariantName(a);
    assert ApiKeyField in fields && fields[ApiKeyField] == a.apiKey;
    assert a.BodyKey? ==> Key1Field in fields && fields[Key1Field] == a.key1;
  }

  /** Decoding the encoding of a value gives the value back. */
  lemma DecodeEncode(a: ConnectorAuthType)
    ensures DecodeConnectorAuthType(EncodeConnectorAuthType(a)) == Success(a)
  {
    DecodeComplete(a, EncodeConnectorAuthType(a));
  }

  /** No variant is partly filled: a known tag with a missing field is an error naming the
      first missing field in declaration order, never a value. */
  lemma DecodeMissingFields(fields: map<string, string>)
    requires AuthTypeField in fields
    ensures fields[AuthTypeField] in {"HeaderKey", "BodyKey"} && ApiKeyField !in fields ==>
              DecodeConnectorAuthType(fields) == Failure(MissingField(ApiKeyField))
    ensures fields[AuthTypeField] == "BodyKey" && ApiKeyField in fields && Key1Field !in fields ==>
              DecodeConnectorAuthType(fields) == Failure(MissingField(Key1Field))
    ensures fields[AuthTypeField] == "HeaderKey" && ApiKeyField in fields ==>
              DecodeConnectorAuthType(fields) == Success(HeaderKey(fields[ApiKeyField]))
  {
  }

  /** ConnectorsList: the connector names a merchant enables. */
  datatype ConnectorsList = ConnectorsList(connectors: seq<string>)

  /** Response: a connector's raw HTTP answer. */
  datatype Response = Response(response: Bytes, statusCode: U16)

  /** Redirection: whether a payment answer sends the customer elsewhere. */
  datatype Redirection = Redirect | NoRedirect

  /** ConnectorResponse: what a connector said about a payment attempt, as stored. */
  datatype ConnectorResponse = ConnectorResponse(
    merchantId: string,
    connector: string,
    paymentId: string,
    amount: I32,
    connectorTransactionId: string,
    returnUrl: Option<string>,
    threeDsForm: Option<RedirectForm>)

  /** The derived `Default` for ConnectorResponse: empty strings, a zero amount, no options. */
  function DefaultConnectorResponse(): (c: ConnectorResponse)
    ensures c.merchantId == [] && c.connector == [] && c.paymentId == []
    ensures c.amount == 0 && c.connectorTransactionId == []
    ensures c.returnUrl.None? && c.threeDsForm.None?
  {
    ConnectorResponse("", "", "", 0, "", None, None)
  }

  /** ErrorResponse: the one error shape that crosses the connector boundary. */
  datatype ErrorResponse = ErrorResponse(code: string, message: string, reason: Option<string>)

  /** Stands for `ApiErrorResponse::NotImplemented.error_code()`, declared outside this model. */
  const NotImplementedCode: string := "IR_00"

  /** Stands for `ApiErrorResponse::NotImplemented.error_message()`, declared outside this model. */
  const NotImplementedMessage: string := "This API is under development and will be made available soon."

  /** `ErrorResponse::get_not_implemented`: the fixed error for a flow a connector does not
      support, with the NotImplemented code and message, both non-empty, and no reason. */
  function GetNotImplemented(): (e: ErrorResponse)
    ensures e.code == NotImplementedCode && e.message == NotImplementedMessage
    ensures |e.code| > 0 && |e.message| > 0
    ensures e.reason.None?
  {
    ErrorResponse(NotImplementedCode, NotImplementedMessage, None)
  }
}
