# my-collection-manager, modelled in Dafny

`my-collection-manager` is a CosmWasm contract that sits in front of a cw721
NFT collection. A caller sends it `PassThrough { collection, message }`.
The contract takes the coins attached to the call and settles them. For a
`Mint`, it charges the configured mint price: the price goes to the
beneficiary and the change goes back to the caller. For any other message,
it refunds everything. It then forwards the inner message to the collection
with no funds, under reply id 1, and emits a `token-count-before` event with
the collection's current token count. When the forwarded call succeeds, the
host calls `reply`. The contract strips a 2-byte framing prefix from the
reply data, decodes the collection's `{num_tokens}` answer and emits a
`token-count-after` event. The payment parameters (beneficiary and optional
price) are set at `instantiate` and replaced wholesale by the privileged
`sudo` update.

Modules, one per component of `src/contract.rs`:

- `Types` (types.dfy): coins, `PaymentParams`, the host's message and
  response shapes, the contract errors, and `Validate`.
- `Decimal` (decimal.dfy): `to_string` of counts and amounts, with its
  inverse.
- `Coins` (coins.dfy): per-denomination totals, and `split_fund_denom` as a
  loop that pushes onto `others`.
- `Fees` (fees.dfy): `handle_pre_mint_funds` as a method proved against the
  specification function `Reconcile`, plus the lemmas about `Reconcile`.
- `Events` (events.dfy): the count events and
  `append_payment_params_attributes`.
- `Reply` (reply.dfy): `ReplyCode::try_from`, `reply` and
  `reply_pass_through`.
- `PassThrough` (passthrough.dfy): what `execute_pass_through` returns, as the
  function `PassThroughOutcome`, with its lemmas.
- `Contract` (contract.dfy): the class `Manager`. Its single field is the
  stored `PaymentParams`, which is `None` before instantiation. `Instantiate`
  and `SudoUpdatePaymentParams` replace that field, and `ExecutePassThrough`
  reads it.

Modelling conventions:

- A handler returns `Outcome`. It is `Ok(value)`, `Err(ContractError)` for the
  contract's `Err` returns, or `Panicked(reason)` where the Rust code panics.
  There are three panics:
  - `strict_add` overflow in `split_fund_denom`;
  - an unknown reply id in `ReplyCode::try_from`;
  - `data.0[2..]` on reply data shorter than 2 bytes.
- `Uint128` and `u64` are `nat` subset types below 2^128 and 2^64. The
  aggregate in `split_fund_denom` is computed without a bound, and the loop
  panics exactly when the running total would leave `Uint128`. Because
  amounts are non-negative, that happens exactly when the whole total of the
  denomination is at least 2^128.
- Installing the same parameters twice is idempotent. This follows from the
  contracts of `Instantiate` and `SudoUpdatePaymentParams`: on success, the
  new state and the response depend on the new parameters only.

Behaviour of the code worth pointing out:

- Reply data shorter than the 2-byte prefix makes `reply_pass_through` panic.
  It does not degrade to an empty response.
- `handle_pre_mint_funds` checks for a zero price again, with `ZeroPrice`,
  even though validation already rejects one.
- There is no `migrate` entry point in the code.

## Model

| member | source | states |
|---|---|---|
| `Types.Validate` | src/contract.rs:37 | validation fails, with `ZeroPrice`, exactly when a price is present and its amount is zero |
| `Decimal.NatToDecimal` | src/contract.rs:96-97 | a count is written as a non-empty string of digits with no leading zero |
| `Decimal.DecimalRoundTrip` | src/contract.rs:96-97 | parsing what `to_string` writes gives the number back |
| `Decimal.CanonicalRoundTrip` | src/contract.rs:96-97 | every numeral with no leading zero is exactly what `to_string` writes for its value, so the rendering is a bijection onto canonical numerals |
| `Events.CountEvent` | src/contract.rs:178-179 | the count event has the contract's event type and one attribute under the given key; its value is the canonical numeral (digits, non-empty, no leading zero) and parses back to exactly the count |
| `Coins.OtherCoins` | src/contract.rs:144-157 | the coins kept by the split are no more than the funds, and none of them is in the price denomination |
| `Coins.SplitFundDenom` | src/contract.rs:144-157 | the fold returns the total of the denomination and the other coins in order; it panics with an overflow exactly when that total reaches 2^128 |
| `Coins.OtherCoinsAppend` | src/contract.rs:147-153 | splitting distributes over concatenation, so the other coins keep their original order |
| `Coins.OtherCoinsMultiplicity` | src/contract.rs:150-153 | each coin of another denomination is kept exactly as many times as it was attached (not merged, not dropped); no coin of the price denomination is kept |
| `Coins.OtherCoinsAmounts` | src/contract.rs:147-153 | the other coins hold none of the price denomination and all of every other denomination |
| `Coins.AmountOfPermutation` | src/contract.rs:145-150 | the aggregated total of a denomination does not depend on the order of the funds |
| `Fees.Reconcile` | src/contract.rs:103-142 | the reconciler yields at most two sends, none of them empty; its only panic is the addition overflow |
| `Fees.HandlePreMintFunds` | src/contract.rs:103-142 | the pushing implementation returns exactly what `Reconcile` specifies, errors and panics included |
| `Fees.ReconcileNoPrice` | src/contract.rs:108-141 | without a price, there is no payment: all funds go back to the sender in one send, and no send is made when nothing was attached |
| `Fees.ReconcileErrors` | src/contract.rs:107-118 | missing parameters give `NotFound`; a zero price gives `ZeroPrice`; a total below the price gives `MissingPayment` with exactly the configured price coin; no other case is an error |
| `Fees.ReconcileWrongDenominations` | src/contract.rs:113-118 | funds holding only other denominations always fail with `MissingPayment` |
| `Fees.ChangeContents` | src/contract.rs:114-125 | the change starts with the other coins in order; it holds exactly total − price of the price denomination and all of every other denomination; it has no price-denomination coin when the price is met exactly; it is empty exactly when there are no other coins and no surplus |
| `Fees.ReconcilePaid` | src/contract.rs:119-141 | when the total covers the price, the first send pays exactly the price coin to the beneficiary; a second send, to the sender with the change, exists exactly when the change is non-empty |
| `Fees.ReconcileConservation` | src/contract.rs:108-141 | on success, for every denomination, the sends together carry exactly the attached amount |
| `Fees.ChangeOrderIndependent` | src/contract.rs:114-125 | reordering the funds leaves the change empty or non-empty alike and keeps each denomination's change total |
| `Fees.ReconcileOrderIndependent` | src/contract.rs:108-141 | funds that are permutations of each other are reconciled alike: the same failure, or the same recipients receiving the same totals per denomination |
| `Fees.ReconcileSilverExample` | src/contract.rs:373-465 | price 55 silver with gold 335 and silver 30 twice: 55 silver to the beneficiary, then [gold 335, silver 5] to the sender |
| `Fees.ReconcileShortExample` | src/contract.rs:115-118 | price 55 silver with 40 silver attached fails with `MissingPayment` of 55 silver |
| `Events.AppendPaymentParamsAttributes` | src/contract.rs:209-223 | the existing attributes are kept; the beneficiary comes next; without a price, the mint-price key with "none"; with one, its denomination under the denomination key, then its amount as the canonical numeral under the amount key |
| `Events.PaymentParamsEventRoundTrip` | src/contract.rs:209-223 | the installation event records the parameters completely: they read back exactly from its attributes, with or without a price; the reader accepts only a canonical amount numeral, so the amount is pinned as written |
| `Events.PaymentParamsEventExample` | src/contract.rs:516-521 | beneficiary with a price of 1 silver gives the attributes beneficiary, denomination "silver", amount "1", in that order |
| `Reply.ReplyCodeTryFrom` | src/contract.rs:24-33 | only id 1 is accepted; any other id panics with that id |
| `Reply.ReplyPassThrough` | src/contract.rs:166-181 | an error result propagates as a generic error, and nothing else is an error; it panics exactly when the data is shorter than the 2-byte prefix; success sends no messages and at most one event |
| `Reply.HandleReply` | src/contract.rs:159-164 | ids other than 1 panic; id 1 hands the reply to `reply_pass_through` unchanged, so short data panics there too; the reply is an error exactly when id 1 carries an error result |
| `Reply.ReplyData` | src/contract.rs:168-180 | no data, or data that fails to decode after the prefix, gives the empty response; a decoded count gives exactly one `token-count-after` event with that count |
| `Reply.ReplyRoundTrip` | src/contract.rs:168-180 | a count encoded by a codec the decoder inverts, behind any 2-byte prefix, comes back as the `token-count-after` event, and its value parses back to the count |
| `Reply.ReplyExample` | src/contract.rs:468-493 | prefix [10, 16] before a payload decoding to 4 yields `token-count-after` = "4" |
| `PassThrough.AddBankMessages` | src/contract.rs:65 | adding sends keeps the events and the earlier messages, and adds one message per send |
| `PassThrough.PassThroughOutcome` | src/contract.rs:54-101 | on success the last message is the forwarded call and the only event is `token-count-before` with the queried count |
| `PassThrough.PassThroughNotMint` | src/contract.rs:67-100 | any other message refunds all funds to the sender in one send, or adds none when nothing was attached, whatever the configuration; then the forwarded call and the event follow |
| `PassThrough.PassThroughMint` | src/contract.rs:62-66 | a mint fails as a whole with the reconciler's error or panic; otherwise the reconciler's sends come first, in order, then the forwarded call; a failed count query fails the call |
| `PassThrough.PassThroughConservation` | src/contract.rs:62-100 | on success the messages carry out exactly the attached funds in every denomination, and the forwarded call carries none |
| `PassThrough.PassThroughValidParams` | src/contract.rs:110-111 | with validated parameters in store, a pass-through never fails with `ZeroPrice` |
| `PassThrough.PassThroughFreeMintExample` | src/contract.rs:301-370 | without a price, a mint with gold 335 refunds the gold, forwards the mint with no funds under reply id 1 on success, and reports `token-count-before` = "3" |
| `PassThrough.PassThroughPaidMintExample` | src/contract.rs:372-465 | with price 55 silver, the full response: payment, change [gold 335, silver 5], forwarded mint, `token-count-before` = "3" |
| `PassThrough.PassThroughShortPaymentExample` | src/contract.rs:113-118 | with price 55 silver and 40 silver attached, the pass-through fails with `MissingPayment` and produces no messages |
| `Contract.Manager.constructor` | src/state.rs:8 | before instantiation nothing is stored |
| `Contract.Manager.LoadPaymentParams` | src/contract.rs:107 | loading returns the stored parameters, or `NotFound` when none were saved |
| `Contract.Manager.Instantiate` | src/contract.rs:35-42 | validates first; on success stores exactly the new parameters, so that a later load returns them, and emits their event; on failure leaves storage unchanged and returns `ZeroPrice` |
| `Contract.Manager.SudoUpdatePaymentParams` | src/contract.rs:201-207 | replaces the stored parameters wholesale after validation, so that a later load returns them; the response carries their event; on failure storage is unchanged |
| `Contract.Manager.ExecutePassThrough` | src/contract.rs:54-101 | the step-by-step response building returns exactly `PassThroughOutcome` of the stored parameters; with valid storage it never fails with `ZeroPrice` |

## Left out

- JSON encoding and decoding. The forwarded message is kept as a value, not
  as `to_json_binary` bytes, and a serialization failure there is not
  modelled. The collection's `{num_tokens}` reply payload is decoded by a
  function passed in as `decode`.
- The `NumTokens` query to the collection is host I/O. Its answer, a count
  or a `StdError`, is a parameter.
- The entry-point dispatch of `execute`, `query` and `sudo`, and the
  `entry_point` attributes. These only route to the modelled handlers.
- `PaymentParams::validate` is not part of the source available here. It is
  modelled as "a present price must have an amount above zero, else
  `ZeroPrice`". Any further check it makes, on the beneficiary for example,
  is not modelled.
- The `cw_storage_plus` key/value store. It is the single field
  `Manager.paymentParams`. The `NotFound` kind string is an approximation of
  what the storage library reports.
- `SubMsg.gas_limit` (always `None`) and the `attributes` and `data` fields of
  `Response` (always empty here) are omitted.
- `CollectionExecuteMsg` is reduced to `Mint` and one opaque variant for all
  other messages, and `Mint` loses its extension field. Only the distinction
  between mint and non-mint affects the contract.
- `StdError` is reduced to two forms, `NotFound` and `GenericErr`. A query
  error of any other kind, such as a failure to parse the collection's
  `NumTokensResponse`, is represented as one of them.
- The unit-test mock querier and the multi-contract integration tests in
  tests/contract.rs are test harness. Their scenarios appear only as the
  example lemmas.
