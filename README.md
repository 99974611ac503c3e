# Payment router core: masking strategies and the flow-typed router data model

This project models two pieces of a payment switch in Dafny and proves properties about them.

**Masking strategies** (`Masking.dfy`, from `crates/masking/src/strategy.rs`). A secret value is
rendered for diagnostics by one of three strategies:
- `WithType` writes `"*** "`, the value's type name, then `" ***"`.
- `WithoutType` writes `"*** ***"`.
- `NoMasking` writes the value's Display text.

Each strategy writes into a formatter through `write_str` calls joined by `?`. The formatter is a
class that holds the text written so far (`buf`) and the size of its sink (`capacity`). A write
that would go past the capacity is refused with `fmt::Error` and appends nothing. The meaning of a
`?`-chain of writes is given by the function `WriteChain`, and each strategy method is proved
against it. The value being masked is a parameter that the masked strategies never read. The type
name, `std::any::type_name::<T>()`, is an ordinary string argument.

**Router data model** (`RouterTypes.dfy`, from `crates/router/src/types.rs`).
- `RouterData` is the envelope. Its flow is a `Flow` value, and the type aliases that fix a
  request/response pair per flow are predicates over it (`IsPaymentsRouterData`, …).
- `ResponseRouterData` wraps a raw response, the envelope it answers and a `u16` status.
- `ConnectorAuthType` has the variants `HeaderKey` and `BodyKey`. It comes with its `Default` and
  with its decoding from a configuration object whose `auth_type` field picks the variant.
- `ErrorResponse::get_not_implemented` builds the fixed not-implemented error.

`Wrappers.dfy` holds `Option` and `Result`.

## Model

| member | source | states |
|---|---|---|
| Masking.TypeMask | crates/masking/src/strategy.rs:14-16 | the WithType text is 8 characters longer than the type name, starts with `"*** "`, ends with `" ***"`, and has exactly the type name between them |
| Masking.ParseTypeMask | crates/masking/src/strategy.rs:14-16 | a text read back as a WithType rendering names a type whose rendering is exactly that text |
| Masking.TypeMaskRoundTrip | crates/masking/src/strategy.rs:13-16 | the WithType text gives back its type name, so distinct type names render distinctly and the name is all it reveals |
| Masking.Masked | crates/masking/src/strategy.rs:12-37 | definition, no contract: the text each strategy renders on success (mask with type name, bare mask, or the Display text) |
| Masking.Parts | crates/masking/src/strategy.rs:12-37 | the strings each strategy passes to `write_str`, in order, concatenate to exactly its rendering |
| Masking.MaskedIgnoresValue | crates/masking/src/strategy.rs:12-26 | WithType and WithoutType render the same text for any two values of one type, and WithoutType the same text whatever the type: the value is never read |
| Masking.WriteChain | crates/masking/src/strategy.rs:14-16 | definition, no contract: the writes tried in turn, each appending its string when it fits; the first refused write ends the chain with `Err` |
| Masking.WriteChainOk | crates/masking/src/strategy.rs:14-16 | on a sink within capacity, a `?`-chain of writes succeeds iff all of its text fits, and then it has appended every part in order |
| Masking.WriteChainStops | crates/masking/src/strategy.rs:14-15 | a failed `?`-chain leaves the old text plus the parts before the refused one; the refused part and everything after it are not appended |
| Masking.WriteChainOfThree | crates/masking/src/strategy.rs:14-16 | three writes joined by `?` stop at the first that does not fit: nothing, the first, or the first two appended with `Err`, or all three with `Ok` |
| Masking.WriteChainBounded | crates/masking/src/strategy.rs:14-16 | a chain of writes never takes the sink past its capacity, and it only appends: the old text stays a prefix |
| Masking.Formatter.constructor | crates/masking/src/strategy.rs:6 | a new formatter is empty, within its capacity |
| Masking.Formatter.WriteStr | crates/masking/src/strategy.rs:25 | `write_str` succeeds iff the string fits, appends it then, and leaves the text unchanged when it fails |
| Masking.FmtWithType | crates/masking/src/strategy.rs:12-17 | WithType's result and new text are those of the chain `"*** "`, type name, `" ***"`; it succeeds iff 8 + the name's length fits; on success exactly the WithType text is appended; on failure it stops at the refused write (nothing, `"*** "`, or `"*** "` + name appended) |
| Masking.FmtWithoutType | crates/masking/src/strategy.rs:23-26 | WithoutType appends exactly `"*** ***"` on success and nothing on failure, whatever the value |
| Masking.FmtNoMasking | crates/masking/src/strategy.rs:31-37 | NoMasking appends exactly the value's Display text on success and nothing on failure |
| Masking.Fmt | crates/masking/src/strategy.rs:4-7 | formatting with any strategy has the result and new text of the `?`-chain of that strategy's writes; it succeeds iff its rendering fits; on success it appends exactly the rendering, on failure a proper prefix of it |
| RouterTypes.IsPaymentsRouterData | crates/router/src/types.rs:20 | definition, no contract: flow Authorize, a PaymentsRequestData request, and a response slot holding PaymentsResponseData when filled |
| RouterTypes.IsPaymentsRouterSyncData | crates/router/src/types.rs:21-22 | definition, no contract: flow PSync, a PaymentsRequestSyncData request, and a PaymentsResponseData slot |
| RouterTypes.IsPaymentsRouterCaptureData | crates/router/src/types.rs:23-24 | definition, no contract: flow PCapture, a PaymentsRequestCaptureData request, and a PaymentsResponseData slot |
| RouterTypes.IsPaymentRouterCancelData | crates/router/src/types.rs:26-27 | definition, no contract: flow Void, a PaymentRequestCancelData request, and a PaymentsResponseData slot |
| RouterTypes.IsRefundsRouterData | crates/router/src/types.rs:28 | definition, no contract: any flow, a RefundsRequestData request, and a RefundsResponseData slot |
| RouterTypes.ConformsToAlias | crates/router/src/types.rs:20-28 | definition, no contract: the envelope has the shape of one of the five aliases |
| RouterTypes.BoundFlow | crates/router/src/types.rs:20-28 | each payments request is bound to one payment flow; a refunds request to none |
| RouterTypes.AliasesByBoundFlow | crates/router/src/types.rs:20-28 | an envelope has an alias shape iff its flow is the one its payments request is bound to and its response slot holds payments data, or it has a refunds request and a refunds response slot |
| RouterTypes.PaymentFlowPairing | crates/router/src/types.rs:20-27 | in a conforming payments envelope, Authorize, PSync, PCapture and Void each go with exactly one request type (both directions), and all four take PaymentsResponseData |
| RouterTypes.SameFlowSameRequest | crates/router/src/types.rs:20-27 | two conforming payments envelopes of the same flow carry the same kind of request |
| RouterTypes.RefundsAnyFlow | crates/router/src/types.rs:28 | a refunds envelope still conforms when its flow is replaced by any flow marker |
| RouterTypes.IsPaymentsResponseRouterData | crates/router/src/types.rs:29-30 | definition, no contract: the wrapped envelope has the PaymentsRouterData shape |
| RouterTypes.IsPaymentsCancelResponseRouterData | crates/router/src/types.rs:31-32 | definition, no contract: the wrapped envelope has the PaymentRouterCancelData shape |
| RouterTypes.IsRefundsResponseRouterData | crates/router/src/types.rs:33-34 | definition, no contract: the wrapped envelope has the RefundsRouterData shape, under any flow |
| RouterTypes.ResponseWrapperKeepsEnvelope | crates/router/src/types.rs:136-140 | the response wrapper carries the raw response, the envelope unchanged and a status in 0..65535, and it has the response alias shape iff the envelope has the matching router-data alias shape |
| RouterTypes.DefaultConnectorAuthType | crates/router/src/types.rs:150-156 | the default authentication is a HeaderKey with an empty api_key |
| RouterTypes.VariantName | crates/router/src/types.rs:145-147 | definition, no contract: the tag value naming each variant, `HeaderKey` or `BodyKey` |
| RouterTypes.RequiredField | crates/router/src/types.rs:145-148 | a required field is read iff it is present; otherwise the error names that field |
| RouterTypes.DecodeConnectorAuthType | crates/router/src/types.rs:143-148 | decoding fails with a missing `auth_type` error when the tag is absent, and with an unknown-variant error for any tag other than HeaderKey and BodyKey; a decoded value's variant is the one the tag names |
| RouterTypes.EncodeConnectorAuthType | crates/router/src/types.rs:145-148 | the wire form of HeaderKey has the fields auth_type and api_key; that of BodyKey also has key1 |
| RouterTypes.DecodeComplete | crates/router/src/types.rs:143-148 | any object holding a value's tag and fields decodes to that value; extra fields are ignored |
| RouterTypes.DecodeSound | crates/router/src/types.rs:143-148 | a decoded value is fixed by the object: its tag and every field of its variant are in the object with those values |
| RouterTypes.DecodeEncode | crates/router/src/types.rs:143-148 | decoding the wire form of a value gives the value back |
| RouterTypes.DecodeMissingFields | crates/router/src/types.rs:145-148 | a known tag without api_key, or BodyKey without key1, is an error naming the first missing field, never a partly filled value; HeaderKey with api_key decodes to a HeaderKey with that key |
| RouterTypes.DefaultConnectorResponse | crates/router/src/types.rs:126-135 | the derived default connector response has empty strings, a zero amount and no return URL or 3DS form |
| RouterTypes.GetNotImplemented | crates/router/src/types.rs:175-183 | the not-implemented error has the NotImplemented code and message, both non-empty, and no reason; every call gives the same value |

## Left out

- Masking.Formatter.WriteStr: a real `fmt::Formatter` can fail for any reason its writer has, and it may have written part of a string before failing. The model's sink refuses a write only when it would exceed the capacity, and a refused write appends nothing.
- Masking.FmtNoMasking: `format!("{}", val)` is given as `show(value)`. A Display implementation that itself fails, which makes `format!` panic, is not modelled.
- Masking.Fmt: the `Strategy<T>` trait is modelled as a choice among the three strategies. Other implementations of the trait elsewhere in the crate are not part of this model.
- `std::any::type_name::<T>()` is a string argument. Rust's compiler supplies it, and the model does not connect it to the value's type.
- The Rust compile-time guarantee that a flow pairs with its request type (`PhantomData<Flow>`) is modelled as predicates over a flow value. Nothing in the model rejects a non-conforming envelope at construction.
- `RefundsRouterData<F>` accepts any flow type, including the payment markers, and `RouterData` itself accepts any combination. The model keeps that freedom: refunds data conform under every flow.
- `types.rs` does not enforce that an executed envelope holds exactly one of `response` and `error_response`. The model does not add that invariant either.
- RouterTypes.DecodeConnectorAuthType: every field value is a string. serde's invalid-type errors for non-string values, and which error serde reports when an object has several faults, are not modelled. The precedence modelled is: the tag first, then the variant's fields in declaration order.
- RouterTypes.EncodeConnectorAuthType: `ConnectorAuthType` derives only `Deserialize`. The encoder is a reference form of the configuration's wire format, used as the decoder's partner. It is not code of the router.
- RouterTypes.GetNotImplemented: the code and message come from `errors::ApiErrorResponse`, which is not part of this model. The two constants stand in for them; the model relies only on their being fixed and non-empty.
- The storage enums, `PaymentAddress`, `payments::PaymentMethod`, `MandateData`, `services::RedirectForm` and `bytes::Bytes` are abstract types.
- The `Debug`/`Clone`/`Serialize` derives and serde's error messages are left out.
- `crates/router/src/types/storage/query/connector_response.rs` is not part of this model. Its `insert`, `update` and `find_by_payment_id_and_merchant_id_transaction_id` are asynchronous database calls that delegate to generic query helpers not shown, and the uniqueness of the (merchant, payment, transaction) key lives in the database schema.
- `crates/router/tests/connectors/main.rs` only declares test modules.
- Tracing (`#[instrument]`), async behaviour and connection pooling are left out.
