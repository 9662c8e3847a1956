/**
 * The launch arguments of the node: what the user may give on the command
 * line, the constraints the argument declarations put on it, and the
 * defaults they fill in. `Validate` turns a raw command line into
 * `NodeArgs` or the usage error the node refuses to start with.
 */
module Args {
  import opened Wrappers
  import opened Primitives

  const DEFAULT_PORT: U16 := 8545
  const DEFAULT_ACCOUNTS: U64 := 10
  const DEFAULT_BALANCE: U64 := 10000
  const DEFAULT_HARDFORK: Hardfork := Hardfork("latest")
  const DEFAULT_ORDER: TransactionOrder := TransactionOrder("fees")

  /** The command-line flags that take part in a constraint. */
  datatype Flag =
    | Port | Accounts | Balance | BlockTime | NoMining
    | ForkUrl | ForkBlockNumber | ForkRetryBackoff | NoStorageCaching
    | GasLimit | GasPrice | BlockBaseFeePerGas | ChainId

  datatype UsageError =
    | ValueOutOfRange(flag: Flag, value: int)
    | ArgumentConflict(flag: Flag, conflictsWith: Flag)
    | MissingRequiredArgument(flag: Flag, required: Flag)

  /**
   * A command line as given: `None` for an option that is absent, `false`
   * for a switch that is absent. Numbers are unbounded until validated.
   */
  datatype RawEvmArgs = RawEvmArgs(
    forkUrl: Option<string>,
    forkBlockNumber: Option<int>,
    forkRetryBackoff: Option<int>,
    noStorageCaching: bool,
    gasLimit: Option<int>,
    gasPrice: Option<int>,
    blockBaseFeePerGas: Option<int>,
    chainId: Option<int>)

  datatype RawArgs = RawArgs(
    evm: RawEvmArgs,
    port: Option<int>,
    accounts: Option<int>,
    balance: Option<int>,
    mnemonic: Option<string>,
    derivationPath: Option<string>,
    serverConfig: ServerConfig,
    silent: bool,
    hardfork: Option<Hardfork>,
    blockTime: Option<int>,
    configOut: Option<string>,
    noMining: bool,
    host: Option<IpAddr>,
    order: Option<TransactionOrder>)

  /** `AnvilEvmArgs`: the fork and environment options. */
  datatype AnvilEvmArgs = AnvilEvmArgs(
    forkUrl: Option<string>,
    forkBlockNumber: Option<U64>,
    forkRetryBackoff: Option<U64>,
    noStorageCaching: bool,
    gasLimit: Option<U64>,
    gasPrice: Option<U64>,
    blockBaseFeePerGas: Option<U64>,
    chainId: Option<U64>)

  /** `NodeArgs`: the parsed launch arguments. */
  datatype NodeArgs = NodeArgs(
    evmOpts: AnvilEvmArgs,
    port: U16,
    accounts: U64,
    balance: U64,
    mnemonic: Option<string>,
    derivationPath: Option<string>,
    serverConfig: ServerConfig,
    silent: bool,
    hardfork: Hardfork,
    blockTime: Option<U64>,
    configOut: Option<string>,
    noMining: bool,
    host: Option<IpAddr>,
    order: TransactionOrder)

  /**
   * The cross-field constraints every accepted argument set satisfies:
   * interval mining and disabled mining exclude each other, and the
   * fork-only options appear only together with a fork URL.
   */
  predicate WellFormed(args: NodeArgs) {
    && !(args.noMining && args.blockTime.Some?)
    && (args.evmOpts.forkUrl.None? ==>
          && args.evmOpts.forkBlockNumber.None?
          && args.evmOpts.forkRetryBackoff.None?
          && !args.evmOpts.noStorageCaching)
  }

  // ---------------------------------------------------------------------
  // Value ranges
  // ---------------------------------------------------------------------

  /** One numeric option and the exclusive upper bound of its integer type. */
  datatype RangeCheck = RangeCheck(flag: Flag, value: Option<int>, limit: int)

  predicate FitsIn(value: Option<int>, limit: int) {
    value.None? || 0 <= value.value < limit
  }

  predicate Fits(c: RangeCheck) {
    FitsIn(c.value, c.limit)
  }

  function RangeChecks(raw: RawArgs): seq<RangeCheck> {
    [ RangeCheck(Port, raw.port, U16_LIMIT),
      RangeCheck(Accounts, raw.accounts, U64_LIMIT),
      RangeCheck(Balance, raw.balance, U64_LIMIT),
      RangeCheck(BlockTime, raw.blockTime, U64_LIMIT),
      RangeCheck(ForkBlockNumber, raw.evm.forkBlockNumber, U64_LIMIT),
      RangeCheck(ForkRetryBackoff, raw.evm.forkRetryBackoff, U64_LIMIT),
      RangeCheck(GasLimit, raw.evm.gasLimit, U64_LIMIT),
      RangeCheck(GasPrice, raw.evm.gasPrice, U64_LIMIT),
      RangeCheck(BlockBaseFeePerGas, raw.evm.blockBaseFeePerGas, U64_LIMIT),
      RangeCheck(ChainId, raw.evm.chainId, U64_LIMIT) ]
  }

  /** Every numeric option given fits its integer type. */
  predicate InRange(raw: RawArgs) {
    forall i | 0 <= i < |RangeChecks(raw)| :: Fits(RangeChecks(raw)[i])
  }

  /** The set of range violations is empty exactly when every numeric option fits. */
  lemma RangeViolationsEmpty(raw: RawArgs)
    ensures RangeViolations(raw) == {} <==> InRange(raw)
  {
    var checks := RangeChecks(raw);
    if !InRange(raw) {
      var i :| 0 <= i < |checks| && !Fits(checks[i]);
      assert checks[i] in checks;
      assert RangeError(checks[i]) in RangeViolations(raw);
    }
  }

  /** The error reported for an option whose value does not fit its type. */
  function RangeError(c: RangeCheck): UsageError
    requires !Fits(c)
  {
    ValueOutOfRange(c.flag, c.value.value)
  }

  /** The first option, in declaration order, whose value does not fit its type. */
  function FirstOutOfRange(checks: seq<RangeCheck>): (r: Option<UsageError>)
    ensures r.None? <==> forall i | 0 <= i < |checks| :: Fits(checks[i])
    ensures r.Some? ==> exists i | 0 <= i < |checks| ::
              && !Fits(checks[i]) && r.value == RangeError(checks[i])
              && forall j | 0 <= j < i :: Fits(checks[j])
  {
    if checks == [] then None
    else if !Fits(checks[0]) then Some(RangeError(checks[0]))
    else
      var rest := FirstOutOfRange(checks[1..]);
      assert forall i | 0 <= i < |checks[1..]| :: checks[1..][i] == checks[i + 1];
      rest
  }

  // ---------------------------------------------------------------------
  // The reference definition of what is wrong with a command line
  // ---------------------------------------------------------------------

  function ConflictViolations(raw: RawArgs): set<UsageError> {
    if raw.noMining && raw.blockTime.Some? then {ArgumentConflict(NoMining, BlockTime)} else {}
  }

  function RequiresViolations(raw: RawArgs): set<UsageError> {
    if raw.evm.forkUrl.Some? then {}
    else
      (if raw.evm.forkBlockNumber.Some? then {MissingRequiredArgument(ForkBlockNumber, ForkUrl)} else {})
      + (if raw.evm.forkRetryBackoff.Some? then {MissingRequiredArgument(ForkRetryBackoff, ForkUrl)} else {})
      + (if raw.evm.noStorageCaching then {MissingRequiredArgument(NoStorageCaching, ForkUrl)} else {})
  }

  /** Every usage error the command line deserves. */
  function RangeViolations(raw: RawArgs): set<UsageError> {
    set c | c in RangeChecks(raw) && !Fits(c) :: RangeError(c)
  }

  function Violations(raw: RawArgs): set<UsageError> {
    RangeViolations(raw)
    + ConflictViolations(raw)
    + RequiresViolations(raw)
  }

  // ---------------------------------------------------------------------
  // Validation
  // ---------------------------------------------------------------------

  /**
   * Parses a command line into `NodeArgs`: the first value that does not
   * fit its integer type is refused; then `--no-mining` conflicts with
   * `--block-time`; then `--fork-block-number`, `--fork-retry-backoff` and
   * `--no-storage-caching` each require `--fork-url`. Absent options take
   * their defaults.
   */
  function Validate(raw: RawArgs): (r: Result<NodeArgs, UsageError>)
    ensures r.Success? <==> Violations(raw) == {}
    ensures r.Failure? ==> r.error in Violations(raw)
    ensures r.Success? ==> WellFormed(r.value)
    ensures r.Success? ==> r.value.port == raw.port.GetOr(DEFAULT_PORT)
    ensures r.Success? ==> r.value.accounts == raw.accounts.GetOr(DEFAULT_ACCOUNTS)
    ensures r.Success? ==> r.value.balance == raw.balance.GetOr(DEFAULT_BALANCE)
    ensures r.Success? ==> r.value.hardfork == raw.hardfork.GetOr(DEFAULT_HARDFORK)
    ensures r.Success? ==> r.value.order == raw.order.GetOr(DEFAULT_ORDER)
    ensures r.Success? ==> ToRaw(r.value) == raw.(
              port := Some(r.value.port), accounts := Some(r.value.accounts), balance := Some(r.value.balance),
              hardfork := Some(r.value.hardfork), order := Some(r.value.order))
  {
    var checks := RangeChecks(raw);
    RangeViolationsEmpty(raw);
    match FirstOutOfRange(checks)
    case Some(e) =>
      var i :| 0 <= i < |checks| && !Fits(checks[i]) && e == RangeError(checks[i]);
      assert checks[i] in checks;
      assert e in Violations(raw);
      Failure(e)
    case None =>
      if raw.noMining && raw.blockTime.Some? then
        Failure(ArgumentConflict(NoMining, BlockTime))
      else if raw.evm.forkUrl.None? && raw.evm.forkBlockNumber.Some? then
        Failure(MissingRequiredArgument(ForkBlockNumber, ForkUrl))
      else if raw.evm.forkUrl.None? && raw.evm.forkRetryBackoff.Some? then
        Failure(MissingRequiredArgument(ForkRetryBackoff, ForkUrl))
      else if raw.evm.forkUrl.None? && raw.evm.noStorageCaching then
        Failure(MissingRequiredArgument(NoStorageCaching, ForkUrl))
      else
        Success(WithDefaults(raw))
  }

  /** Narrows an option already known to fit in 64 bits. */
  function AsU64(value: Option<int>): Option<U64>
    requires value.None? || 0 <= value.value < U64_LIMIT
  {
    if value.Some? then Some(value.value) else None
  }

  /**
   * The arguments of a command line whose values fit their types: absent
   * options defaulted, every other value kept as given.
   */
  function WithDefaults(raw: RawArgs): (args: NodeArgs)
    requires InRange(raw)
    ensures args.port == raw.port.GetOr(DEFAULT_PORT)
    ensures args.accounts == raw.accounts.GetOr(DEFAULT_ACCOUNTS)
    ensures args.balance == raw.balance.GetOr(DEFAULT_BALANCE)
    ensures args.hardfork == raw.hardfork.GetOr(DEFAULT_HARDFORK)
    ensures args.order == raw.order.GetOr(DEFAULT_ORDER)
    ensures ToRaw(args) == raw.(
              port := Some(args.port), accounts := Some(args.accounts), balance := Some(args.balance),
              hardfork := Some(args.hardfork), order := Some(args.order))
  {
    var checks := RangeChecks(raw);
    assert Fits(checks[0]) && Fits(checks[1]) && Fits(checks[2]) && Fits(checks[3]) && Fits(checks[4]);
    assert Fits(checks[5]) && Fits(checks[6]) && Fits(checks[7]) && Fits(checks[8]) && Fits(checks[9]);
    var evm := AnvilEvmArgs(
      raw.evm.forkUrl,
      AsU64(raw.evm.forkBlockNumber),
      AsU64(raw.evm.forkRetryBackoff),
      raw.evm.noStorageCaching,
      AsU64(raw.evm.gasLimit),
      AsU64(raw.evm.gasPrice),
      AsU64(raw.evm.blockBaseFeePerGas),
      AsU64(raw.evm.chainId));
    NodeArgs(
      evm,
      raw.port.GetOr(DEFAULT_PORT),
      raw.accounts.GetOr(DEFAULT_ACCOUNTS),
      raw.balance.GetOr(DEFAULT_BALANCE),
      raw.mnemonic,
      raw.derivationPath,
      raw.serverConfig,
      raw.silent,
      raw.hardfork.GetOr(DEFAULT_HARDFORK),
      AsU64(raw.blockTime),
      raw.configOut,
      raw.noMining,
      raw.host,
      raw.order.GetOr(DEFAULT_ORDER))
  }

  // ---------------------------------------------------------------------
  // Properties of validation
  // ---------------------------------------------------------------------

  /**
   * `--no-mining` and `--block-time` may each be given alone, never both;
   * the refusal names both flags.
   */
  lemma MiningFlagsExclusive(raw: RawArgs)
    requires InRange(raw) && RequiresViolations(raw) == {}
    ensures Validate(raw).Success? <==> !(raw.noMining && raw.blockTime.Some?)
    ensures Validate(raw).Failure? ==> Validate(raw).error == ArgumentConflict(NoMining, BlockTime)
  {
  }

  /**
   * Without `--fork-url`, each of `--fork-block-number`,
   * `--fork-retry-backoff` and `--no-storage-caching` is refused with an
   * error naming itself; with `--fork-url` all of them are accepted.
   */
  lemma ForkOptionsRequireForkUrl(raw: RawArgs)
    requires InRange(raw) && ConflictViolations(raw) == {}
    ensures raw.evm.forkUrl.Some? ==> Validate(raw).Success?
    ensures raw.evm.forkUrl.None? && raw.evm.forkBlockNumber.Some? ==>
              MissingRequiredArgument(ForkBlockNumber, ForkUrl) in Violations(raw) && Validate(raw).Failure?
    ensures raw.evm.forkUrl.None? && raw.evm.forkRetryBackoff.Some? ==>
              MissingRequiredArgument(ForkRetryBackoff, ForkUrl) in Violations(raw) && Validate(raw).Failure?
    ensures raw.evm.forkUrl.None? && raw.evm.noStorageCaching ==>
              MissingRequiredArgument(NoStorageCaching, ForkUrl) in Violations(raw) && Validate(raw).Failure?
    ensures Validate(raw).Failure? ==> Validate(raw).error.MissingRequiredArgument? && Validate(raw).error.required == ForkUrl
  {
  }

  function Widen(value: Option<U64>): Option<int> {
    if value.Some? then Some(value.value) else None
  }

  /** The command line that spells out every value of `args` explicitly. */
  function ToRaw(args: NodeArgs): RawArgs {
    var evm := args.evmOpts;
    RawArgs(
      RawEvmArgs(
        evm.forkUrl,
        Widen(evm.forkBlockNumber),
        Widen(evm.forkRetryBackoff),
        evm.noStorageCaching,
        Widen(evm.gasLimit),
        Widen(evm.gasPrice),
        Widen(evm.blockBaseFeePerGas),
        Widen(evm.chainId)),
      Some(args.port),
      Some(args.accounts),
      Some(args.balance),
      args.mnemonic,
      args.derivationPath,
      args.serverConfig,
      args.silent,
      Some(args.hardfork),
      Widen(args.blockTime),
      args.configOut,
      args.noMining,
      args.host,
      Some(args.order))
  }

  /**
   * Explicit values are kept exactly: every argument set that satisfies the
   * cross-field constraints is what validation yields for the command line
   * that spells it out, and no other argument set is ever yielded.
   */
  lemma ValidateExplicit(args: NodeArgs)
    ensures Validate(ToRaw(args)).Success? <==> WellFormed(args)
    ensures WellFormed(args) ==> Validate(ToRaw(args)) == Success(args)
  {
  }

  /** The command line with no options at all, beside the server options. */
  function EmptyCommandLine(serverConfig: ServerConfig): RawArgs {
    RawArgs(
      RawEvmArgs(None, None, None, false, None, None, None, None),
      None, None, None, None, None, serverConfig, false, None, None, None, false, None, None)
  }

  /**
   * With nothing given, the node listens on port 8545 and funds 10 accounts
   * with 10000 ether each, on the `latest` hardfork with `fees` ordering.
   */
  lemma DefaultArguments(serverConfig: ServerConfig)
    ensures Validate(EmptyCommandLine(serverConfig)).Success?
    ensures var args := Validate(EmptyCommandLine(serverConfig)).value;
      && args.port == 8545 && args.accounts == 10 && args.balance == 10000
      && args.hardfork == Hardfork("latest") && args.order == TransactionOrder("fees")
      && args.mnemonic.None? && args.derivationPath.None? && args.blockTime.None? && !args.noMining
      && args.evmOpts.forkUrl.None? && args.evmOpts.chainId.None?
  {
  }
}
