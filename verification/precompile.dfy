/** `ServicesPrecompile`: the twelve EVM entry points that turn ABI arguments
    into one services-pallet call and dispatch it as the caller's mapped
    ledger account.

    Every entry point charges the fixed database-read gas cost, maps the
    20-byte caller, narrows its integer arguments, decodes its byte
    arguments (each with its own revert reason), converts the attached value
    into a balance when it is payable, and dispatches exactly once.

    `Translate` and `Execute` say what one entry point does as a function of
    its inputs; the `Handle` methods perform the same steps one at a time
    against the mutable precompile handle and are proved to agree with
    `Execute`. */
module ServicesPrecompile {
  import opened Wrappers
  import opened Uint
  import opened Scale
  import opened PalletServices

  /** An EVM address. */
  type H160 = s: Bytes | |s| == 20 witness seq(20, i => 0)

  /** The error side of `EvmResult`. */
  datatype Failure =
    | OutOfGas                       // the gas meter cannot pay a recorded cost
    | Revert(reason: string)         // an argument was refused by the precompile
    | DispatchFailed(error: string)  // the pallet refused the dispatched call

  /** What the runtime supplies and the precompile cannot see into: the
      database-read gas cost, the EVM-to-ledger address mapping, the SCALE
      decoders of the byte arguments, the gas charged for a call's weight and
      the pallet's verdict on a dispatched call (`None` when it succeeds). */
  datatype Runtime = Runtime(
    dbReadGasCost: nat,
    addressMapping: H160 -> AccountId,
    decodeBlueprint: Bytes -> Option<Blueprint>,
    decodePreferences: Bytes -> Option<OperatorPreferences>,
    decodeFields: Bytes -> Option<seq<Field>>,
    decodeAccounts: Bytes -> Option<seq<AccountId>>,
    decodeAccount: Bytes -> Option<AccountId>,
    dispatchGasCost: Call -> nat,
    dispatchError: (Option<AccountId>, Call) -> Option<string>)

  /** The ABI arguments of one entry point, one variant per selector. */
  datatype Input =
    | CreateBlueprint(blueprintData: Bytes)                      // createBlueprint(bytes)
    | RegisterOperator(blueprintId: U256, preferences: Bytes,
                       registrationArgs: Bytes)                  // registerOperator(uint256,bytes,bytes)
    | UnregisterOperator(blueprintId: U256)                      // unregisterOperator(uint256)
    | RequestService(blueprintId: U256, assets: seq<U256>,
                     permittedCallersData: Bytes,
                     serviceProvidersData: Bytes,
                     requestArgsData: Bytes)                     // requestService(uint256,uint256[],bytes,bytes,bytes)
    | TerminateService(serviceId: U256)                          // terminateService(uint256)
    | Approve(requestId: U256, restakingPercent: U8)             // approve(uint256,uint8)
    | Reject(requestId: U256)                                    // reject(uint256)
    | Terminate(serviceId: U256)                                 // terminate(uint256)
    | CallJob(serviceId: U256, job: U8, argsData: Bytes)         // callJob(uint256,uint8,bytes)
    | SubmitResult(serviceId: U256, callId: U256,
                   resultData: Bytes)                            // submitResult(uint256,uint256,bytes)
    | Slash(offender: Bytes, serviceId: U256, percent: U8)       // slash(bytes,uint256,uint8)
    | Dispute(era: U32, index: U32)                              // dispute(uint32,uint32)

  /** A call handed to the pallet, with the origin it runs as. */
  datatype Dispatched = Dispatched(origin: Option<AccountId>, call: Call)

  const INVALID_BLUEPRINT := "Invalid blueprint data"
  const INVALID_PREFERENCES := "Invalid preferences data"
  const INVALID_REGISTRATION_ARGS := "Invalid registration arguments"
  const INVALID_PERMITTED_CALLERS := "Invalid permitted callers data"
  const INVALID_SERVICE_PROVIDERS := "Invalid service providers data"
  const INVALID_REQUEST_ARGS := "Invalid request arguments data"
  const INVALID_JOB_ARGS := "Invalid job call arguments data"
  const INVALID_JOB_RESULT := "Invalid job result data"
  const INVALID_OFFENDER := "Invalid offender account id"
  const INVALID_BALANCE := "Value is not a valid balance"

  /** The time-to-live every bridged service request carries. */
  const REQUEST_TTL: nat := 10000

  /** Every narrowing the entry point reaches fits its target width, as the
      uint crate's `as_u64` and `as_u32` demand. Identifiers are narrowed
      before any byte argument is decoded; the assets of `requestService`
      only after its three decodes have succeeded. */
  predicate NarrowingsFit(rt: Runtime, input: Input) {
    match input
    case CreateBlueprint(_) => true
    case RegisterOperator(blueprintId, _, _) => blueprintId < U64_LIMIT
    case UnregisterOperator(blueprintId) => blueprintId < U64_LIMIT
    case RequestService(blueprintId, assets, permittedCallersData, serviceProvidersData, requestArgsData) =>
      && blueprintId < U64_LIMIT
      && (RequestDataDecodes(rt, permittedCallersData, serviceProvidersData, requestArgsData)
          ==> AssetsInRange(assets))
    case TerminateService(serviceId) => serviceId < U64_LIMIT
    case Approve(requestId, _) => requestId < U64_LIMIT
    case Reject(requestId) => requestId < U64_LIMIT
    case Terminate(serviceId) => serviceId < U64_LIMIT
    case CallJob(serviceId, _, _) => serviceId < U64_LIMIT
    case SubmitResult(serviceId, callId, _) => serviceId < U64_LIMIT && callId < U64_LIMIT
    case Slash(_, serviceId, _) => serviceId < U64_LIMIT
    case Dispute(_, _) => true
  }

  /** The three byte arguments of `requestService` all decode. */
  predicate RequestDataDecodes(rt: Runtime, permittedCallersData: Bytes,
                               serviceProvidersData: Bytes, requestArgsData: Bytes)
  {
    && rt.decodeAccounts(permittedCallersData).Some?
    && rt.decodeAccounts(serviceProvidersData).Some?
    && rt.decodeFields(requestArgsData).Some?
  }

  predicate AssetsInRange(assets: seq<U256>) {
    forall i | 0 <= i < |assets| :: assets[i] < U32_LIMIT
  }

  /** `.map_err(|_| revert(reason))` on a decoder's result. */
  function Decoded<T>(d: Option<T>, reason: string): Result<T, Failure> {
    match d
    case Some(v) => Ok(v)
    case None => Err(Revert(reason))
  }

  /** Registration arguments: empty bytes are the empty list and never reach
      the decoder; other bytes must decode as a list of fields. */
  function DecodeRegistrationArgs(rt: Runtime, data: Bytes): (r: Result<seq<Field>, Failure>)
    ensures |data| == 0 ==> r == Ok([])
    ensures |data| > 0 ==> (r.Ok? <==> rt.decodeFields(data).Some?)
    ensures |data| > 0 && r.Ok? ==> r.value == rt.decodeFields(data).value
    ensures r.Err? ==> r.error == Revert(INVALID_REGISTRATION_ARGS)
  {
    if |data| == 0 then Ok([]) else Decoded(rt.decodeFields(data), INVALID_REGISTRATION_ARGS)
  }

  /** The attached value as a balance: its 32-byte little-endian image read
      back as a `u128`. The revert branch is never taken; what is lost is
      every bit above the 128th. */
  function DecodeBalance(value: U256): (r: Result<Balance, Failure>)
    ensures r == Ok(value % U128_LIMIT)
    ensures value < U128_LIMIT ==> r == Ok(value)
  {
    DecodeU128OfU256Image(value);
    Decoded(DecodeU128(LeBytes(value, U256_BYTES)), INVALID_BALANCE)
  }

  /** The same conversion as the source performs it: fill a local 32-byte
      buffer in place, then decode a balance from its front. */
  method ValueToBalance(value: U256) returns (r: Result<Balance, Failure>)
    ensures r == DecodeBalance(value)
    ensures r == Ok(value % U128_LIMIT)
  {
    var valueBytes := new Byte[U256_BYTES];
    ToLittleEndian(value, valueBytes);
    r := Decoded(DecodeU128(valueBytes[..]), INVALID_BALANCE);
  }

  /** `assets.into_iter().map(|a| a.as_u32().into()).collect()`. */
  function NarrowAssets(assets: seq<U256>): (r: seq<AssetId>)
    requires AssetsInRange(assets)
    ensures |r| == |assets|
    ensures forall i | 0 <= i < |r| :: r[i] == assets[i]
  {
    if |assets| == 0 then [] else [AsU32(assets[0])] + NarrowAssets(assets[1..])
  }

  /** The pallet call an entry point builds from its arguments and the
      attached value, or the revert it stops with. */
  function Translate(rt: Runtime, value: U256, input: Input): (r: Result<Call, Failure>)
    requires NarrowingsFit(rt, input)
    ensures r.Err? ==> r.error.Revert?
  {
    match input
    case CreateBlueprint(blueprintData) =>
      var blueprint :- Decoded(rt.decodeBlueprint(blueprintData), INVALID_BLUEPRINT);
      Ok(Call.CreateBlueprint(blueprint))
    case RegisterOperator(blueprintId, preferences, registrationArgs) =>
      var prefs :- Decoded(rt.decodePreferences(preferences), INVALID_PREFERENCES);
      var args :- DecodeRegistrationArgs(rt, registrationArgs);
      var balance := DecodeBalance(value).value;  // the conversion never reverts
      Ok(Call.Register(AsU64(blueprintId), prefs, args, balance))
    case UnregisterOperator(blueprintId) =>
      Ok(Call.Unregister(AsU64(blueprintId)))
    case RequestService(blueprintId, assets, permittedCallersData, serviceProvidersData, requestArgsData) =>
      var permittedCallers :- Decoded(rt.decodeAccounts(permittedCallersData), INVALID_PERMITTED_CALLERS);
      var operators :- Decoded(rt.decodeAccounts(serviceProvidersData), INVALID_SERVICE_PROVIDERS);
      var requestArgs :- Decoded(rt.decodeFields(requestArgsData), INVALID_REQUEST_ARGS);
      var balance := DecodeBalance(value).value;  // the conversion never reverts
      Ok(Call.Request(AsU64(blueprintId), permittedCallers, operators, REQUEST_TTL,
                      NarrowAssets(assets), requestArgs, balance))
    case TerminateService(serviceId) =>
      Ok(Call.Terminate(AsU64(serviceId)))
    case Approve(requestId, restakingPercent) =>
      Ok(Call.Approve(AsU64(requestId), FromPercent(restakingPercent)))
    case Reject(requestId) =>
      Ok(Call.Reject(AsU64(requestId)))
    case Terminate(serviceId) =>
      Ok(Call.Terminate(AsU64(serviceId)))
    case CallJob(serviceId, job, argsData) =>
      var args :- Decoded(rt.decodeFields(argsData), INVALID_JOB_ARGS);
      Ok(Call.JobCall(AsU64(serviceId), job, args))
    case SubmitResult(serviceId, callId, resultData) =>
      var result :- Decoded(rt.decodeFields(resultData), INVALID_JOB_RESULT);
      Ok(Call.SubmitResult(AsU64(serviceId), AsU64(callId), result))
    case Slash(offender, serviceId, percent) =>
      var account :- Decoded(rt.decodeAccount(offender), INVALID_OFFENDER);
      Ok(Call.Slash(account, AsU64(serviceId), FromPercent(percent)))
    case Dispute(era, index) =>
      Ok(Call.Dispute(era, index))
  }

  /** What one entry point leaves behind: its result, the gas left and the
      calls dispatched so far. */
  datatype Outcome = Outcome(result: Result<(), Failure>, gas: nat, log: seq<Dispatched>)

  /** `RuntimeHelper::try_dispatch`: pay the call's weight in gas, then let
      the pallet run it; a refused call changes nothing in the ledger. */
  function Dispatch(rt: Runtime, gas: nat, log: seq<Dispatched>,
                    origin: Option<AccountId>, call: Call): (o: Outcome)
    ensures o.result.Ok? <==> gas >= rt.dispatchGasCost(call) && rt.dispatchError(origin, call).None?
    ensures o.result.Ok? ==> o.log == log + [Dispatched(origin, call)]
    ensures o.result.Err? ==> o.log == log
    ensures o.result == Err(OutOfGas) ==> o.gas == 0
    ensures o.gas <= gas
  {
    var cost := rt.dispatchGasCost(call);
    if gas < cost then Outcome(Err(OutOfGas), 0, log)
    else match rt.dispatchError(origin, call)
      case Some(e) => Outcome(Err(DispatchFailed(e)), gas - cost, log)
      case None => Outcome(Ok(()), gas - cost, log + [Dispatched(origin, call)])
  }

  /** One entry point from start to end: charge the database-read cost,
      translate the arguments, dispatch as the mapped caller. */
  function Execute(rt: Runtime, gas: nat, log: seq<Dispatched>, caller: H160,
                   value: U256, input: Input): (o: Outcome)
    requires gas >= rt.dbReadGasCost ==> NarrowingsFit(rt, input)
    ensures gas < rt.dbReadGasCost ==> o == Outcome(Err(OutOfGas), 0, log)
    ensures o.result.Err? ==> o.log == log
    ensures o.result.Ok? ==>
      |o.log| == |log| + 1 && o.log[..|log|] == log &&
      o.log[|log|].origin == Some(rt.addressMapping(caller))
    ensures o.gas <= gas
  {
    if gas < rt.dbReadGasCost then Outcome(Err(OutOfGas), 0, log)
    else
      var charged := gas - rt.dbReadGasCost;
      match Translate(rt, value, input)
      case Err(f) => Outcome(Err(f), charged, log)
      case Ok(call) => Dispatch(rt, charged, log, Some(rt.addressMapping(caller)), call)
  }

  /** The precompile handle of one EVM call: its context (caller and
      attached value), its gas meter, and the calls it has dispatched into
      the ledger. */
  class Handle {
    const caller: H160
    const apparentValue: U256
    var gas: nat
    var log: seq<Dispatched>

    constructor (caller: H160, apparentValue: U256, gas: nat)
      ensures this.caller == caller && this.apparentValue == apparentValue
      ensures this.gas == gas && log == []
    {
      this.caller := caller;
      this.apparentValue := apparentValue;
      this.gas := gas;
      log := [];
    }

    /** The outcome an entry point's method reached, in the terms of `Execute`. */
    ghost function Now(r: Result<(), Failure>): Outcome
      reads this
    {
      Outcome(r, gas, log)
    }

    /** `handle.record_cost(cost)`: debit the meter; a cost it cannot pay
        exhausts it and fails with `OutOfGas`. */
    method RecordCost(cost: nat) returns (r: Result<(), Failure>)
      modifies this`gas
      ensures old(gas) < cost ==> r == Err(OutOfGas) && gas == 0
      ensures old(gas) >= cost ==> r == Ok(()) && gas == old(gas) - cost
    {
      if gas < cost {
        gas := 0;
        return Err(OutOfGas);
      }
      gas := gas - cost;
      r := Ok(());
    }

    method TryDispatch(rt: Runtime, origin: Option<AccountId>, call: Call)
      returns (r: Result<(), Failure>)
      modifies this
      ensures Now(r) == Dispatch(rt, old(gas), old(log), origin, call)
    {
      var _ :- RecordCost(rt.dispatchGasCost(call));
      match rt.dispatchError(origin, call)
      case Some(e) =>
        r := Err(DispatchFailed(e));
      case None =>
        log := log + [Dispatched(origin, call)];
        r := Ok(());
    }

    method CreateBlueprint(rt: Runtime, blueprintData: Bytes) returns (r: Result<(), Failure>)
      modifies this
      ensures Now(r) == Execute(rt, old(gas), old(log), caller, apparentValue,
                                Input.CreateBlueprint(blueprintData))
    {
      var _ :- RecordCost(rt.dbReadGasCost);
      var origin := rt.addressMapping(caller);
      var blueprint :- Decoded(rt.decodeBlueprint(blueprintData), INVALID_BLUEPRINT);
      var call := Call.CreateBlueprint(blueprint);
      r := TryDispatch(rt, Some(origin), call);
    }

    method RegisterOperator(rt: Runtime, blueprintId: U256, preferences: Bytes,
                            registrationArgs: Bytes) returns (r: Result<(), Failure>)
      requires gas >= rt.dbReadGasCost ==> blueprintId < U64_LIMIT
      modifies this
      ensures Now(r) == Execute(rt, old(gas), old(log), caller, apparentValue,
                                Input.RegisterOperator(blueprintId, preferences, registrationArgs))
    {
      var _ :- RecordCost(rt.dbReadGasCost);
      var origin := rt.addressMapping(caller);
      var value := apparentValue;
      var id := AsU64(blueprintId);
      var prefs :- Decoded(rt.decodePreferences(preferences), INVALID_PREFERENCES);
      var args: seq<Field>;
      if |registrationArgs| == 0 {
        args := [];
      } else {
        args :- Decoded(rt.decodeFields(registrationArgs), INVALID_REGISTRATION_ARGS);
      }
      var converted := ValueToBalance(value);
      var balance := converted.value;  // the conversion never reverts
      var call := Call.Register(id, prefs, args, balance);
      r := TryDispatch(rt, Some(origin), call);
    }

    method UnregisterOperator(rt: Runtime, blueprintId: U256) returns (r: Result<(), Failure>)
      requires gas >= rt.dbReadGasCost ==> blueprintId < U64_LIMIT
      modifies this
      ensures Now(r) == Execute(rt, old(gas), old(log), caller, apparentValue,
                                Input.UnregisterOperator(blueprintId))
    {
      var _ :- RecordCost(rt.dbReadGasCost);
      var origin := rt.addressMapping(caller);
      var id := AsU64(blueprintId);
      var call := Call.Unregister(id);
      r := TryDispatch(rt, Some(origin), call);
    }

    method RequestService(rt: Runtime, blueprintId: U256, assets: seq<U256>,
                          permittedCallersData: Bytes, serviceProvidersData: Bytes,
                          requestArgsData: Bytes) returns (r: Result<(), Failure>)
      requires gas >= rt.dbReadGasCost ==> blueprintId < U64_LIMIT
      requires gas >= rt.dbReadGasCost ==>
        RequestDataDecodes(rt, permittedCallersData, serviceProvidersData, requestArgsData) ==>
        AssetsInRange(assets)
      modifies this
      ensures Now(r) == Execute(rt, old(gas), old(log), caller, apparentValue,
                                Input.RequestService(blueprintId, assets, permittedCallersData,
                                                     serviceProvidersData, requestArgsData))
    {
      var _ :- RecordCost(rt.dbReadGasCost);
      var origin := rt.addressMapping(caller);
      var id := AsU64(blueprintId);
      var permittedCallers :- Decoded(rt.decodeAccounts(permittedCallersData), INVALID_PERMITTED_CALLERS);
      var operators :- Decoded(rt.decodeAccounts(serviceProvidersData), INVALID_SERVICE_PROVIDERS);
      var requestArgs :- Decoded(rt.decodeFields(requestArgsData), INVALID_REQUEST_ARGS);
      var assetIds := NarrowAssets(assets);
      var converted := ValueToBalance(apparentValue);
      var balance := converted.value;  // the conversion never reverts
      var call := Call.Request(id, permittedCallers, operators, REQUEST_TTL, assetIds,
                               requestArgs, balance);
      r := TryDispatch(rt, Some(origin), call);
    }

    method TerminateService(rt: Runtime, serviceId: U256) returns (r: Result<(), Failure>)
      requires gas >= rt.dbReadGasCost ==> serviceId < U64_LIMIT
      modifies this
      ensures Now(r) == Execute(rt, old(gas), old(log), caller, apparentValue,
                                Input.TerminateService(serviceId))
    {
      var _ :- RecordCost(rt.dbReadGasCost);
      var origin := rt.addressMapping(caller);
      var id := AsU64(serviceId);
      var call := Call.Terminate(id);
      r := TryDispatch(rt, Some(origin), call);
    }

    method Approve(rt: Runtime, requestId: U256, restakingPercent: U8) returns (r: Result<(), Failure>)
      requires gas >= rt.dbReadGasCost ==> requestId < U64_LIMIT
      modifies this
      ensures Now(r) == Execute(rt, old(gas), old(log), caller, apparentValue,
                                Input.Approve(requestId, restakingPercent))
    {
      var _ :- RecordCost(rt.dbReadGasCost);
      var origin := rt.addressMapping(caller);
      var id := AsU64(requestId);
      var percent := FromPercent(restakingPercent);
      var call := Call.Approve(id, percent);
      r := TryDispatch(rt, Some(origin), call);
    }

    method Reject(rt: Runtime, requestId: U256) returns (r: Result<(), Failure>)
      requires gas >= rt.dbReadGasCost ==> requestId < U64_LIMIT
      modifies this
      ensures Now(r) == Execute(rt, old(gas), old(log), caller, apparentValue,
                                Input.Reject(requestId))
    {
      var _ :- RecordCost(rt.dbReadGasCost);
      var origin := rt.addressMapping(caller);
      var id := AsU64(requestId);
      var call := Call.Reject(id);
      r := TryDispatch(rt, Some(origin), call);
    }

    method Terminate(rt: Runtime, serviceId: U256) returns (r: Result<(), Failure>)
      requires gas >= rt.dbReadGasCost ==> serviceId < U64_LIMIT
      modifies this
      ensures Now(r) == Execute(rt, old(gas), old(log), caller, apparentValue,
                                Input.Terminate(serviceId))
    {
      var _ :- RecordCost(rt.dbReadGasCost);
      var origin := rt.addressMapping(caller);
      var id := AsU64(serviceId);
      var call := Call.Terminate(id);
      r := TryDispatch(rt, Some(origin), call);
    }

    method CallJob(rt: Runtime, serviceId: U256, job: U8, argsData: Bytes)
      returns (r: Result<(), Failure>)
      requires gas >= rt.dbReadGasCost ==> serviceId < U64_LIMIT
      modifies this
      ensures Now(r) == Execute(rt, old(gas), old(log), caller, apparentValue,
                                Input.CallJob(serviceId, job, argsData))
    {
      var _ :- RecordCost(rt.dbReadGasCost);
      var origin := rt.addressMapping(caller);
      var id := AsU64(serviceId);
      var args :- Decoded(rt.decodeFields(argsData), INVALID_JOB_ARGS);
      var call := Call.JobCall(id, job, args);
      r := TryDispatch(rt, Some(origin), call);
    }

    method SubmitResult(rt: Runtime, serviceId: U256, callId: U256, resultData: Bytes)
      returns (r: Result<(), Failure>)
      requires gas >= rt.dbReadGasCost ==> serviceId < U64_LIMIT && callId < U64_LIMIT
      modifies this
      ensures Now(r) == Execute(rt, old(gas), old(log), caller, apparentValue,
                                Input.SubmitResult(serviceId, callId, resultData))
    {
      var _ :- RecordCost(rt.dbReadGasCost);
      var origin := rt.addressMapping(caller);
      var sid := AsU64(serviceId);
      var cid := AsU64(callId);
      var result :- Decoded(rt.decodeFields(resultData), INVALID_JOB_RESULT);
      var call := Call.SubmitResult(sid, cid, result);
      r := TryDispatch(rt, Some(origin), call);
    }

    method Slash(rt: Runtime, offender: Bytes, serviceId: U256, percent: U8)
      returns (r: Result<(), Failure>)
      requires gas >= rt.dbReadGasCost ==> serviceId < U64_LIMIT
      modifies this
      ensures Now(r) == Execute(rt, old(gas), old(log), caller, apparentValue,
                                Input.Slash(offender, serviceId, percent))
    {
      var _ :- RecordCost(rt.dbReadGasCost);
      var origin := rt.addressMapping(caller);
      var id := AsU64(serviceId);
      var p := FromPercent(percent);
      var account :- Decoded(rt.decodeAccount(offender), INVALID_OFFENDER);
      var call := Call.Slash(account, id, p);
      r := TryDispatch(rt, Some(origin), call);
    }

    method Dispute(rt: Runtime, era: U32, index: U32) returns (r: Result<(), Failure>)
      modifies this
      ensures Now(r) == Execute(rt, old(gas), old(log), caller, apparentValue,
                                Input.Dispute(era, index))
    {
      var _ :- RecordCost(rt.dbReadGasCost);
      var origin := rt.addressMapping(caller);
      var call := Call.Dispute(era, index);
      r := TryDispatch(rt, Some(origin), call);
    }
  }
}
