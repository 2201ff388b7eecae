/** What the services precompile guarantees about every entry point: gas is
    charged before anything else, a refused argument reverts with its own
    reason and dispatches nothing, a successful call dispatches exactly one
    pallet call as the mapped caller, and the arguments reach that call
    converted as the ABI promises. */
module PrecompileProperties {
  import opened Wrappers
  import opened Uint
  import opened PalletServices
  import opened ServicesPrecompile

  /** The byte arguments an entry point decodes, by what they must decode as. */
  datatype ArgKind =
    | BlueprintData | Preferences | RegistrationArgs | PermittedCallers
    | ServiceProviders | RequestArgs | JobArgs | JobResult | Offender

  datatype Arg = Arg(kind: ArgKind, data: Bytes)

  /** The byte arguments of an entry point, in the order it decodes them. */
  function ByteArgs(input: Input): seq<Arg> {
    match input
    case CreateBlueprint(d) => [Arg(BlueprintData, d)]
    case RegisterOperator(_, p, a) => [Arg(Preferences, p), Arg(RegistrationArgs, a)]
    case RequestService(_, _, c, s, a) =>
      [Arg(PermittedCallers, c), Arg(ServiceProviders, s), Arg(RequestArgs, a)]
    case CallJob(_, _, a) => [Arg(JobArgs, a)]
    case SubmitResult(_, _, d) => [Arg(JobResult, d)]
    case Slash(o, _, _) => [Arg(Offender, o)]
    case _ => []
  }

  /** Whether one byte argument is acceptable, judged on its own. */
  predicate Decodes(rt: Runtime, a: Arg) {
    match a.kind
    case BlueprintData => rt.decodeBlueprint(a.data).Some?
    case Preferences => rt.decodePreferences(a.data).Some?
    case RegistrationArgs => |a.data| == 0 || rt.decodeFields(a.data).Some?
    case PermittedCallers => rt.decodeAccounts(a.data).Some?
    case ServiceProviders => rt.decodeAccounts(a.data).Some?
    case RequestArgs => rt.decodeFields(a.data).Some?
    case JobArgs => rt.decodeFields(a.data).Some?
    case JobResult => rt.decodeFields(a.data).Some?
    case Offender => rt.decodeAccount(a.data).Some?
  }

  /** The revert reason each kind of argument fails with. */
  function Reason(k: ArgKind): string {
    match k
    case BlueprintData => INVALID_BLUEPRINT
    case Preferences => INVALID_PREFERENCES
    case RegistrationArgs => INVALID_REGISTRATION_ARGS
    case PermittedCallers => INVALID_PERMITTED_CALLERS
    case ServiceProviders => INVALID_SERVICE_PROVIDERS
    case RequestArgs => INVALID_REQUEST_ARGS
    case JobArgs => INVALID_JOB_ARGS
    case JobResult => INVALID_JOB_RESULT
    case Offender => INVALID_OFFENDER
  }

  predicate AllDecode(rt: Runtime, args: seq<Arg>) {
    forall j | 0 <= j < |args| :: Decodes(rt, args[j])
  }

  /** The argument an entry point stops at: the first one that does not
      decode, if any. */
  predicate FirstFailure(rt: Runtime, args: seq<Arg>, i: nat) {
    i < |args| && !Decodes(rt, args[i]) && AllDecode(rt, args[..i])
  }

  /** An entry point translates exactly when each of its byte arguments
      decodes; narrowing and the value conversion never refuse, and every
      refusal is a revert. */
  lemma {:induction false} TranslatesIffAllDecode(rt: Runtime, value: U256, input: Input)
    requires NarrowingsFit(rt, input)
    ensures Translate(rt, value, input).Ok? <==> AllDecode(rt, ByteArgs(input))
    ensures Translate(rt, value, input).Err? ==> Translate(rt, value, input).error.Revert?
  {
    var args := ByteArgs(input);
    match input
    case RegisterOperator(_, p, a) =>
      assert Decodes(rt, args[0]) == rt.decodePreferences(p).Some?;
      assert Decodes(rt, args[1]) == (|a| == 0 || rt.decodeFields(a).Some?);
    case RequestService(_, _, c, s, a) =>
      assert Decodes(rt, args[0]) == rt.decodeAccounts(c).Some?;
      assert Decodes(rt, args[1]) == rt.decodeAccounts(s).Some?;
      assert Decodes(rt, args[2]) == rt.decodeFields(a).Some?;
    case CreateBlueprint(d) =>
      assert Decodes(rt, args[0]) == rt.decodeBlueprint(d).Some?;
    case CallJob(_, _, a) =>
      assert Decodes(rt, args[0]) == rt.decodeFields(a).Some?;
    case SubmitResult(_, _, d) =>
      assert Decodes(rt, args[0]) == rt.decodeFields(d).Some?;
    case Slash(o, _, _) =>
      assert Decodes(rt, args[0]) == rt.decodeAccount(o).Some?;
    case _ =>
  }

  /** A refused entry point reverts with the reason of the first argument
      that does not decode. */
  lemma {:induction false} RevertsAtFirstFailure(rt: Runtime, value: U256, input: Input, i: nat)
    requires NarrowingsFit(rt, input)
    requires FirstFailure(rt, ByteArgs(input), i)
    ensures Translate(rt, value, input) == Err(Revert(Reason(ByteArgs(input)[i].kind)))
  {
    var args := ByteArgs(input);
    match input
    case RegisterOperator(_, p, a) =>
      if i == 1 {
        assert Decodes(rt, args[..i][0]);
      }
    case RequestService(_, _, c, s, a) =>
      if i >= 1 {
        assert Decodes(rt, args[..i][0]);
      }
      if i == 2 {
        assert Decodes(rt, args[..i][1]);
      }
    case _ =>
  }

  /** Nothing happens before the database-read cost is paid: with too little
      gas every entry point, whatever its arguments, runs out of gas with
      nothing dispatched; otherwise that cost is always taken. */
  lemma ChargesGasFirst(rt: Runtime, gas: nat, log: seq<Dispatched>, caller: H160,
                        value: U256, input: Input)
    requires gas >= rt.dbReadGasCost ==> NarrowingsFit(rt, input)
    ensures gas < rt.dbReadGasCost ==>
      Execute(rt, gas, log, caller, value, input) == Outcome(Err(OutOfGas), 0, log)
    ensures gas >= rt.dbReadGasCost ==>
      Execute(rt, gas, log, caller, value, input).gas <= gas - rt.dbReadGasCost
  {
  }

  /** A call whose arguments are refused costs the database read and
      leaves the dispatch log as it was. */
  lemma RevertLeavesNoTrace(rt: Runtime, gas: nat, log: seq<Dispatched>, caller: H160,
                            value: U256, input: Input, i: nat)
    requires NarrowingsFit(rt, input)
    requires gas >= rt.dbReadGasCost
    requires FirstFailure(rt, ByteArgs(input), i)
    ensures Execute(rt, gas, log, caller, value, input)
         == Outcome(Err(Revert(Reason(ByteArgs(input)[i].kind))), gas - rt.dbReadGasCost, log)
  {
    RevertsAtFirstFailure(rt, value, input, i);
  }

  /** A failed call dispatches nothing; a successful one dispatches exactly
      its translated call, once, with the mapped caller as signed origin. */
  lemma DispatchesAtMostOnce(rt: Runtime, gas: nat, log: seq<Dispatched>, caller: H160,
                             value: U256, input: Input)
    requires NarrowingsFit(rt, input)
    ensures Execute(rt, gas, log, caller, value, input).result.Err? ==>
      Execute(rt, gas, log, caller, value, input).log == log
    ensures Execute(rt, gas, log, caller, value, input).result.Ok? ==>
      Translate(rt, value, input).Ok? &&
      Execute(rt, gas, log, caller, value, input).log
        == log + [Dispatched(Some(rt.addressMapping(caller)), Translate(rt, value, input).value)]
  {
  }

  /** A call succeeds exactly when the database read is paid for, the
      arguments translate, the call's weight is paid for and the pallet accepts it. */
  lemma SucceedsIff(rt: Runtime, gas: nat, log: seq<Dispatched>, caller: H160,
                    value: U256, input: Input)
    requires NarrowingsFit(rt, input)
    ensures Execute(rt, gas, log, caller, value, input).result.Ok? <==>
      gas >= rt.dbReadGasCost && Translate(rt, value, input).Ok? &&
      gas - rt.dbReadGasCost >= rt.dispatchGasCost(Translate(rt, value, input).value) &&
      rt.dispatchError(Some(rt.addressMapping(caller)), Translate(rt, value, input).value).None?
  {
  }

  /** `registerOperator`: empty registration bytes give an empty field list
      whatever the decoder says; the bond is the attached value modulo 2^128,
      the value itself when it fits. */
  lemma RegisterCall(rt: Runtime, value: U256, blueprintId: U256, preferences: Bytes,
                     registrationArgs: Bytes)
    requires blueprintId < U64_LIMIT
    requires rt.decodePreferences(preferences).Some?
    requires |registrationArgs| == 0 || rt.decodeFields(registrationArgs).Some?
    ensures Translate(rt, value, Input.RegisterOperator(blueprintId, preferences, registrationArgs))
         == Ok(Call.Register(blueprintId, rt.decodePreferences(preferences).value,
                             if |registrationArgs| == 0 then []
                             else rt.decodeFields(registrationArgs).value,
                             value % U128_LIMIT))
    ensures value < U128_LIMIT ==>
      Translate(rt, value, Input.RegisterOperator(blueprintId, preferences, registrationArgs)).value.value
        == value
  {
  }

  /** `requestService`: the request always carries a time-to-live of 10000,
      its assets are the given ones, in order, narrowed to `u32`, and its
      value is the attached value modulo 2^128. */
  lemma RequestCall(rt: Runtime, value: U256, blueprintId: U256, assets: seq<U256>,
                    permittedCallersData: Bytes, serviceProvidersData: Bytes,
                    requestArgsData: Bytes)
    requires NarrowingsFit(rt, Input.RequestService(blueprintId, assets, permittedCallersData,
                                                    serviceProvidersData, requestArgsData))
    ensures var r := Translate(rt, value, Input.RequestService(blueprintId, assets,
                                 permittedCallersData, serviceProvidersData, requestArgsData));
      r.Ok? ==>
        && r.value.Request?
        && r.value.blueprintId == blueprintId
        && r.value.permittedCallers == rt.decodeAccounts(permittedCallersData).value
        && r.value.operators == rt.decodeAccounts(serviceProvidersData).value
        && r.value.requestArgs == rt.decodeFields(requestArgsData).value
        && r.value.ttl == REQUEST_TTL
        && |r.value.assets| == |assets|
        && (forall i | 0 <= i < |assets| :: r.value.assets[i] == assets[i])
        && r.value.value == value % U128_LIMIT
        && (value < U128_LIMIT ==> r.value.value == value)
  {
  }

  /** `terminateService` and `terminate` are one operation under two names. */
  lemma TerminateEntriesAgree(rt: Runtime, gas: nat, log: seq<Dispatched>, caller: H160,
                              value: U256, serviceId: U256)
    requires serviceId < U64_LIMIT
    ensures Execute(rt, gas, log, caller, value, Input.TerminateService(serviceId))
         == Execute(rt, gas, log, caller, value, Input.Terminate(serviceId))
    ensures Translate(rt, value, Input.Terminate(serviceId)) == Ok(Call.Terminate(serviceId))
  {
  }

  /** Integer and percent arguments reach the pallet unchanged: identifiers
      keep their value, `job`, `era` and `index` are forwarded as given, and
      percents are `from_percent` of the given byte. */
  lemma ScalarArgumentsForwarded(rt: Runtime, value: U256, input: Input)
    requires NarrowingsFit(rt, input)
    ensures input.UnregisterOperator? ==>
      Translate(rt, value, input) == Ok(Call.Unregister(input.blueprintId))
    ensures input.Approve? ==>
      Translate(rt, value, input) == Ok(Call.Approve(input.requestId, FromPercent(input.restakingPercent)))
      && (input.restakingPercent <= 100 ==>
            Translate(rt, value, input).value.restakingPercent.parts == input.restakingPercent)
    ensures input.Reject? ==>
      Translate(rt, value, input) == Ok(Call.Reject(input.requestId))
    ensures input.Dispute? ==>
      Translate(rt, value, input) == Ok(Call.Dispute(input.era, input.index))
    ensures input.CallJob? && Translate(rt, value, input).Ok? ==>
      Translate(rt, value, input)
        == Ok(Call.JobCall(input.serviceId, input.job, rt.decodeFields(input.argsData).value))
    ensures input.SubmitResult? && Translate(rt, value, input).Ok? ==>
      Translate(rt, value, input)
        == Ok(Call.SubmitResult(input.serviceId, input.callId, rt.decodeFields(input.resultData).value))
    ensures input.Slash? && Translate(rt, value, input).Ok? ==>
      Translate(rt, value, input)
        == Ok(Call.Slash(rt.decodeAccount(input.offender).value, input.serviceId, FromPercent(input.percent)))
      && (input.percent <= 100 ==> Translate(rt, value, input).value.percent.parts == input.percent)
    ensures input.CreateBlueprint? && Translate(rt, value, input).Ok? ==>
      Translate(rt, value, input) == Ok(Call.CreateBlueprint(rt.decodeBlueprint(input.blueprintData).value))
  {
  }
}
