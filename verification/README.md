# Services precompile: a Dafny model of the EVM call bridge

This project models `ServicesPrecompile`, the bridge that lets an EVM
contract use the services marketplace pallet. It has twelve ABI entry points,
from `createBlueprint(bytes)` to `dispute(uint32,uint32)`. Each one follows
the same fixed recipe:

1. It charges the database-read gas cost.
2. It maps the 20-byte EVM caller to a ledger account.
3. It narrows the `uint256` identifiers to `u64` (and asset ids to `u32`) and
   turns `uint8` percents into `Percent`.
4. It SCALE-decodes each byte argument. A failure reverts with that
   argument's own reason.
5. `registerOperator` and `requestService` convert the attached value. They
   write it as a 32-byte little-endian buffer and read a `u128` balance back
   from it.
6. It dispatches exactly one `pallet_services::Call`, signed by the mapped
   account.

Modules:

- `Uint` (`uint.dfy`): the fixed-width integers, the narrowing casts
  `as_u64` and `as_u32`, and `to_little_endian`. That last one is a method
  that fills a buffer array in place.
- `Scale` (`scale.dfy`): SCALE's fixed-width `u128` decoding. It includes the
  proof that reading a `u128` back from the 32-byte image of a value `v`
  gives `v mod 2^128`, and `v` itself when `v < 2^128`.
- `PalletServices` (`pallet_services.dfy`): the pallet's call type, the
  abstract decoded types (blueprint, preferences, field, account) and
  `Percent::from_percent`.
- `ServicesPrecompile` (`precompile.dfy`):
  - The runtime's foreign pieces, supplied as the function-valued fields of
    `Runtime`: address mapping, SCALE decoders, dispatch gas and the pallet's
    verdict.
  - The ABI input type.
  - `Translate`, the call an entry point builds or the revert it stops with.
  - `Execute`, the whole entry point: gas, translation and dispatch.
  - The `Handle` class: the precompile handle, with its gas meter and the log
    of dispatched calls. Its twelve methods perform the steps in the source's
    order, and each is proved equal to `Execute`.
- `PrecompileProperties` (`precompile_properties.dfy`): the guarantees shared
  by all entry points, stated over `Translate` and `Execute`.

Two behaviours of the code are easy to misread:

- **Identifier narrowing panics rather than wraps.** Identifiers are narrowed
  with the uint crate's `as_u64`/`as_u32`, which panic when the value does
  not fit. They do not wrap around. The model follows the code: it requires
  each narrowing the entry point actually reaches to be in range, and proves
  the cast is the identity there. Identifiers are narrowed after the gas
  charge and before any decode. The assets of `requestService` are narrowed
  only after its three decodes have succeeded.
- **The balance check never fires.** The `u128` balance is decoded from the
  front of a 32-byte buffer, and SCALE does not require the input to be used
  up. So the "Value is not a valid balance" revert can never happen. A value
  of `2^128` or more would be cut to its low 128 bits rather than refused.
  `DecodeBalance` states this exactly.

The balance width, `Balance = u128`, is taken from the test runtime
(pallets/services/src/mock.rs:42).

## Model

| member | source | states |
|---|---|---|
| Uint.AsU64 | precompiles/services/src/lib.rs:67 | `as_u64` of an identifier below 2^64 returns the same number |
| Uint.AsU32 | precompiles/services/src/lib.rs:143-144 | `as_u32` of an asset id below 2^32 returns the same number |
| Uint.LeBytes | precompiles/services/src/lib.rs:80-84 | the little-endian image of a value asked for in n bytes is exactly n bytes long |
| Uint.ToLittleEndian | precompiles/services/src/lib.rs:80-84 | filling the 32-byte buffer leaves in it exactly the little-endian image of the value |
| Scale.LeValue | precompiles/services/src/lib.rs:85 | the number read from k little-endian bytes is below 256^k |
| Scale.DecodeU128 | precompiles/services/src/lib.rs:85-86 | decoding a `u128` succeeds exactly when at least 16 bytes are present |
| Scale.DecodeU128IgnoresTrailing | precompiles/services/src/lib.rs:85 | bytes after the first 16 do not change the decoded balance |
| Scale.LeBytesPrefix | precompiles/services/src/lib.rs:80-85 | the first 16 bytes of the 32-byte image are the 16-byte image of the value |
| Scale.LeValueOfLeBytes | precompiles/services/src/lib.rs:80-86 | reading back the n-byte image of v gives v modulo 256^n |
| Scale.DecodeU128OfImage | precompiles/services/src/lib.rs:80-86 | a `u128` read from an image of 16 or more bytes is the value modulo 2^128 |
| Scale.DecodeU128OfU256Image | precompiles/services/src/lib.rs:146-153 | the balance read from a U256's 32-byte image is the value modulo 2^128, and the value itself when below 2^128 |
| PalletServices.FromPercent | precompiles/services/src/lib.rs:194 | the percent built from a byte is at most 100, and equals the byte when the byte is at most 100 |
| ServicesPrecompile.DecodeBalance | precompiles/services/src/lib.rs:80-86 | the balance from the attached value is always `Ok(value mod 2^128)`, so the "Value is not a valid balance" revert is unreachable; it is the value itself when below 2^128 |
| ServicesPrecompile.ValueToBalance | precompiles/services/src/lib.rs:146-153 | the in-place buffer conversion yields `Ok(value mod 2^128)`, the same as `DecodeBalance` |
| ServicesPrecompile.NarrowAssets | precompiles/services/src/lib.rs:143-144 | the asset list keeps the input's length and order, each id narrowed to the same number |
| ServicesPrecompile.DecodeRegistrationArgs | precompiles/services/src/lib.rs:73-79 | empty registration bytes give `Ok([])` without the decoder; other bytes give the decoded list, or revert "Invalid registration arguments" exactly when the decoder refuses them |
| ServicesPrecompile.Translate | precompiles/services/src/lib.rs:35-325 | every refusal is a revert; `TranslatesIffAllDecode` and `RevertsAtFirstFailure` give when it succeeds and which reason it reverts with |
| ServicesPrecompile.Dispatch | precompiles/services/src/lib.rs:49 | `try_dispatch` succeeds exactly when the call's weight is paid for and the pallet accepts it; then it appends exactly `(origin, call)` to the log, and otherwise the log is unchanged; running out of gas leaves 0 gas |
| ServicesPrecompile.Execute | precompiles/services/src/lib.rs:39-51 | with less gas than the read cost it fails `OutOfGas` with 0 gas and nothing dispatched, whatever the arguments; a failure leaves the log unchanged; a success appends one entry signed by `Some(into_account_id(caller))`; `SucceedsIff` and `DispatchesAtMostOnce` complete it |
| ServicesPrecompile.Handle.RecordCost | precompiles/services/src/lib.rs:39 | with too little gas it fails `OutOfGas` and leaves the meter exhausted at 0; otherwise it debits exactly the cost |
| ServicesPrecompile.Handle.TryDispatch | precompiles/services/src/lib.rs:49 | it pays the call's weight in gas, then appends `(origin, call)` to the log if the pallet accepts it, and otherwise fails with the log unchanged |
| ServicesPrecompile.Handle.CreateBlueprint | precompiles/services/src/lib.rs:35-52 | the step-by-step entry point ends in the result, gas and log that `Execute` gives for `createBlueprint` |
| ServicesPrecompile.Handle.RegisterOperator | precompiles/services/src/lib.rs:56-97 | the step-by-step entry point, with its value buffer, ends as `Execute` says for `registerOperator` |
| ServicesPrecompile.Handle.UnregisterOperator | precompiles/services/src/lib.rs:101-112 | ends as `Execute` says for `unregisterOperator` |
| ServicesPrecompile.Handle.RequestService | precompiles/services/src/lib.rs:116-167 | ends as `Execute` says for `requestService` |
| ServicesPrecompile.Handle.TerminateService | precompiles/services/src/lib.rs:171-182 | ends as `Execute` says for `terminateService` |
| ServicesPrecompile.Handle.Approve | precompiles/services/src/lib.rs:186-201 | ends as `Execute` says for `approve` |
| ServicesPrecompile.Handle.Reject | precompiles/services/src/lib.rs:205-215 | ends as `Execute` says for `reject` |
| ServicesPrecompile.Handle.Terminate | precompiles/services/src/lib.rs:219-229 | ends as `Execute` says for `terminate` |
| ServicesPrecompile.Handle.CallJob | precompiles/services/src/lib.rs:233-253 | ends as `Execute` says for `callJob` |
| ServicesPrecompile.Handle.SubmitResult | precompiles/services/src/lib.rs:257-281 | ends as `Execute` says for `submitResult` |
| ServicesPrecompile.Handle.Slash | precompiles/services/src/lib.rs:289-309 | ends as `Execute` says for `slash` |
| ServicesPrecompile.Handle.Dispute | precompiles/services/src/lib.rs:315-325 | ends as `Execute` says for `dispute` |
| PrecompileProperties.TranslatesIffAllDecode | precompiles/services/src/lib.rs:128-153 | an entry point builds its call if and only if every byte argument decodes; narrowing and the value conversion never refuse, and every refusal is a revert |
| PrecompileProperties.RevertsAtFirstFailure | precompiles/services/src/lib.rs:132-142 | a refused entry point reverts with the reason of the first byte argument, in decoding order, that fails |
| PrecompileProperties.ChargesGasFirst | precompiles/services/src/lib.rs:39 | with less gas than the database-read cost, every entry point fails `OutOfGas` whatever its arguments (out-of-range identifiers included), with the meter exhausted and the log untouched; otherwise that cost is always taken |
| PrecompileProperties.RevertLeavesNoTrace | precompiles/services/src/lib.rs:43-49 | a decode failure costs only the database read and leaves the dispatch log unchanged |
| PrecompileProperties.DispatchesAtMostOnce | precompiles/services/src/lib.rs:87-94 | a failed call dispatches nothing; a successful one appends exactly one entry, the translated call with origin `Some(into_account_id(caller))` |
| PrecompileProperties.SucceedsIff | precompiles/services/src/lib.rs:62-94 | a call succeeds if and only if the read is paid for, the arguments translate, the call's weight is paid for and the pallet accepts it |
| PrecompileProperties.RegisterCall | precompiles/services/src/lib.rs:67-92 | empty registration bytes give an empty field list without consulting the decoder; the dispatched `register` carries the narrowed id, the decoded preferences and `value mod 2^128` |
| PrecompileProperties.RequestCall | precompiles/services/src/lib.rs:143-162 | the dispatched `request` has ttl 10000, the decoded callers, operators and arguments, the assets in input order and length with each id unchanged, and value `value mod 2^128` |
| PrecompileProperties.TerminateEntriesAgree | precompiles/services/src/lib.rs:171-229 | `terminateService` and `terminate` have the same outcome on every input, and both build `terminate { service_id }` |
| PrecompileProperties.ScalarArgumentsForwarded | precompiles/services/src/lib.rs:186-325 | ids, `job`, `era` and `index` reach the pallet unchanged; `approve` and `slash` use `from_percent` of the given byte, equal to it when at most 100 |

## Left out

- Uint.AsU64: an identifier of 2^64 or more makes the uint crate panic. The
  model only admits in-range identifiers, so it does not model that panic.
- Uint.AsU32: likewise for asset ids of 2^32 or more.
- Gas left after a failure: a failed charge leaves 0 gas, as the EVM's gas
  meter reports after an out-of-gas error. A revert or a refused dispatch
  leaves the gas the meter had at that point. What the EVM then returns to
  the calling frame is not modelled.
- The payable and static-call checks of the `precompile` macro
  (precompile_utils, not part of this model) are not modelled. No entry point
  is marked payable, so that library may refuse a call carrying a non-zero
  value, or made in a static context, before its body runs. The model's
  paths with a non-zero attached value describe the body as written, which
  the macro may never let such a call reach.
- PalletServices.FromPercent: bytes above 100 are clamped to 100, as
  sp_arithmetic's `from_percent` does. That crate is not part of this model,
  so the contract states only the bound and the in-range identity.
- SCALE decoding of `ServiceBlueprint`, `OperatorPreferences`, `Field` lists
  and account ids belongs to a foreign codec. These decoders are abstract
  partial functions supplied through `Runtime`.
- `AddressMapping::into_account_id` is an arbitrary function supplied
  through `Runtime`. Its injectivity is not assumed or used.
- `RuntimeHelper::try_dispatch` belongs to precompile_utils, which is not
  part of this model. The model charges a supplied gas cost for the call's
  weight, then asks a supplied verdict function whether the pallet accepts
  the call. The refund of unused weight is not modelled.
- The pallet's own state machine (registry, quorum engine, job dispatch,
  deferred slashing) is not part of this model. The log of dispatched calls
  stands in for the ledger.
- The ABI decoding done by the `precompile` macro is not modelled: selector
  matching, `UnboundedBytes`, and the `uint8`/`uint32` range checks. The
  model's inputs are the already-decoded ABI values.
- `registerOperator` and `requestService` read the converted balance straight
  from the value conversion, whose revert branch is proved unreachable.
- EVM execution, gas-to-weight conversion, events and the test runtime
  (mock.rs, beyond `Balance = u128`) are not modelled.
