/** The dispatchable calls of the services pallet, as the precompile builds
    them. The pallet's own state machine is not part of this model: a call
    here is only the typed command handed to the ledger. */
module PalletServices {
  import opened Uint

  /** `ServiceBlueprint<Constraints>`, decoded by SCALE; its contents are not
      part of this model. */
  type Blueprint
  /** `OperatorPreferences`, decoded by SCALE. */
  type OperatorPreferences
  /** `Field<Constraints, AccountId>`, one typed job or registration argument. */
  type Field
  /** The ledger's account identifier. */
  type AccountId

  /** `Balance = u128` in the test runtime. */
  type Balance = U128

  /** Assets are named by `u32` identifiers converted into `AssetId`. */
  type AssetId = U32

  /** `sp_runtime::Percent`: parts per hundred. */
  datatype Percent = Percent(parts: nat)

  /** `Percent::from_percent(x)`: x percent, held to at most one hundred. */
  function FromPercent(x: U8): (p: Percent)
    ensures p.parts <= 100
    ensures x <= 100 ==> p.parts == x
  {
    Percent(if x < 100 then x else 100)
  }

  /** `pallet_services::Call`: one variant per dispatchable the precompile
      reaches. */
  datatype Call =
    | CreateBlueprint(blueprint: Blueprint)
    | Register(blueprintId: U64, preferences: OperatorPreferences,
               registrationArgs: seq<Field>, value: Balance)
    | Unregister(blueprintId: U64)
    | Request(blueprintId: U64, permittedCallers: seq<AccountId>,
              operators: seq<AccountId>, ttl: nat, assets: seq<AssetId>,
              requestArgs: seq<Field>, value: Balance)
    | Terminate(serviceId: U64)
    | Approve(requestId: U64, restakingPercent: Percent)
    | Reject(requestId: U64)
    | JobCall(serviceId: U64, job: U8, args: seq<Field>)  // `call`
    | SubmitResult(serviceId: U64, callId: U64, result: seq<Field>)
    | Slash(offender: AccountId, serviceId: U64, percent: Percent)
    | Dispute(era: U32, index: U32)
}
