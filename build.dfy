/**
 * Turning validated launch arguments into the node configuration
 * (`NodeArgs::into_node_config`) and into the settings of the account
 * generator (`NodeArgs::account_generator`). Both are pure: the
 * configuration is a function of the arguments alone.
 */
module Build {
  import opened Wrappers
  import opened Primitives
  import opened Generator
  import opened Config
  import opened Args

  /**
   * The balance of each dev account in wei: the ether balance times 10^18,
   * saturating at the largest 256-bit value.
   */
  function GenesisBalance(balance: U64): U256 {
    SaturatingMul(WEI_IN_ETHER, balance)
  }

  /**
   * A `u64` ether balance never reaches the saturation cap, so the genesis
   * balance is always the exact product.
   */
  lemma GenesisBalanceExact(balance: U64)
    ensures GenesisBalance(balance) == balance * WEI_IN_ETHER
    ensures GenesisBalance(balance) < U256_MAX
  {
  }

  /** One ether is 10^18 wei; the default 10000 ether is 10^22 wei. */
  lemma GenesisBalanceExamples()
    ensures GenesisBalance(1) == 1_000_000_000_000_000_000
    ensures GenesisBalance(DEFAULT_BALANCE) == 10_000_000_000_000_000_000_000
    ensures GenesisBalance(U64_LIMIT - 1) == (U64_LIMIT - 1) * 1_000_000_000_000_000_000
  {
  }

  /**
   * `NodeArgs::account_generator`: as many accounts as requested, the given
   * mnemonic or else the default one, the given derivation path or else the
   * generator's own, and the given chain id or else the default one.
   */
  function AccountGeneratorOf(args: NodeArgs): (gen: AccountGenerator)
    ensures gen.amount == args.accounts
    ensures args.mnemonic.Some? ==> gen.phrase == args.mnemonic.value
    ensures args.mnemonic.None? ==> gen.phrase == DEFAULT_MNEMONIC
    ensures gen.derivationPath == args.derivationPath
    ensures EffectiveDerivationPath(gen) == if args.derivationPath.Some? then args.derivationPath.value else DEFAULT_DERIVATION_PATH
    ensures args.evmOpts.chainId.Some? ==> gen.chainId == args.evmOpts.chainId.value
    ensures args.evmOpts.chainId.None? ==> gen.chainId == CHAIN_ID
  {
    var gen := WithChainId(WithPhrase(NewGenerator(args.accounts), DEFAULT_MNEMONIC), args.evmOpts.chainId.GetOr(CHAIN_ID));
    var gen := if args.mnemonic.Some? then WithPhrase(gen, args.mnemonic.value) else gen;
    var gen := if args.derivationPath.Some? then WithDerivationPath(gen, args.derivationPath.value) else gen;
    gen
  }

  /** `NodeArgs::into_node_config`. */
  function IntoNodeConfig(args: NodeArgs): (config: NodeConfig)
    ensures config.genesisBalance == args.balance * WEI_IN_ETHER
    ensures config.accountGenerator == AccountGeneratorOf(args)
    ensures config.chainId == config.accountGenerator.chainId
    ensures config.chainId == args.evmOpts.chainId.GetOr(CHAIN_ID)
    ensures config.blockTime.Some? <==> args.blockTime.Some?
    ensures config.blockTime.Some? ==> config.blockTime.value.secs == args.blockTime.value && config.blockTime.value.nanos == 0
  {
    GenesisBalanceExact(args.balance);
    NodeConfig(
      args.evmOpts.gasLimit,
      args.evmOpts.gasPrice,
      args.hardfork,
      if args.blockTime.Some? then Some(DurationFromSecs(args.blockTime.value)) else None,
      args.noMining,
      AccountGeneratorOf(args),
      GenesisBalance(args.balance),
      args.port,
      args.evmOpts.forkUrl,
      args.evmOpts.blockBaseFeePerGas,
      args.evmOpts.forkBlockNumber,
      args.evmOpts.noStorageCaching,
      args.serverConfig,
      args.host,
      args.silent,
      args.configOut,
      args.evmOpts.chainId.GetOr(CHAIN_ID),
      args.order)
  }

  /** Options that reach the configuration unchanged. */
  lemma PassThrough(args: NodeArgs)
    ensures var config := IntoNodeConfig(args);
      && config.port == args.port
      && config.gasLimit == args.evmOpts.gasLimit
      && config.gasPrice == args.evmOpts.gasPrice
      && config.baseFee == args.evmOpts.blockBaseFeePerGas
      && config.ethRpcUrl == args.evmOpts.forkUrl
      && config.forkBlockNumber == args.evmOpts.forkBlockNumber
      && config.noStorageCachingArg == args.evmOpts.noStorageCaching
      && config.host == args.host
      && config.silent == args.silent
      && config.configOut == args.configOut
      && config.hardfork == args.hardfork
      && config.transactionOrder == args.order
      && config.noMining == args.noMining
      && config.serverConfig == args.serverConfig
  {
  }

  /**
   * Two argument sets that the configuration cannot tell apart: they differ
   * at most in the retry backoff, in spelling out the default mnemonic, and
   * in spelling out the default chain id.
   */
  predicate SameEffect(a: NodeArgs, b: NodeArgs) {
    && a.port == b.port && a.accounts == b.accounts && a.balance == b.balance
    && a.mnemonic.GetOr(DEFAULT_MNEMONIC) == b.mnemonic.GetOr(DEFAULT_MNEMONIC)
    && a.derivationPath == b.derivationPath
    && a.serverConfig == b.serverConfig && a.silent == b.silent && a.hardfork == b.hardfork
    && a.blockTime == b.blockTime && a.configOut == b.configOut && a.noMining == b.noMining
    && a.host == b.host && a.order == b.order
    && a.evmOpts.forkUrl == b.evmOpts.forkUrl
    && a.evmOpts.forkBlockNumber == b.evmOpts.forkBlockNumber
    && a.evmOpts.noStorageCaching == b.evmOpts.noStorageCaching
    && a.evmOpts.gasLimit == b.evmOpts.gasLimit && a.evmOpts.gasPrice == b.evmOpts.gasPrice
    && a.evmOpts.blockBaseFeePerGas == b.evmOpts.blockBaseFeePerGas
    && a.evmOpts.chainId.GetOr(CHAIN_ID) == b.evmOpts.chainId.GetOr(CHAIN_ID)
  }

  /**
   * The configuration is determined by the arguments, and every argument
   * except the fork retry backoff shows in it: two argument sets give the
   * same configuration exactly when they have the same effect.
   */
  lemma ConfigDeterminedByArgs(a: NodeArgs, b: NodeArgs)
    ensures IntoNodeConfig(a) == IntoNodeConfig(b) <==> SameEffect(a, b)
  {
  }

  /** The fork retry backoff never reaches the configuration. */
  lemma RetryBackoffIgnored(args: NodeArgs, backoff: Option<U64>)
    ensures IntoNodeConfig(args.(evmOpts := args.evmOpts.(forkRetryBackoff := backoff))) == IntoNodeConfig(args)
  {
  }

  /**
   * A configuration built from a command line that passed validation never
   * asks for both interval mining and disabled mining, and carries fork-only
   * settings only together with a fork URL.
   */
  lemma ValidatedConfigConsistent(raw: RawArgs)
    requires Validate(raw).Success?
    ensures var config := IntoNodeConfig(Validate(raw).value);
      && !(config.noMining && config.blockTime.Some?)
      && (config.ethRpcUrl.None? ==> config.forkBlockNumber.None? && !config.noStorageCachingArg)
  {
  }

  /**
   * The node started with no options: port 8545, ten accounts of 10^22 wei
   * from the default mnemonic on the default derivation path, default chain id.
   */
  lemma DefaultConfig(serverConfig: ServerConfig)
    ensures Validate(EmptyCommandLine(serverConfig)).Success?
    ensures var config := IntoNodeConfig(Validate(EmptyCommandLine(serverConfig)).value);
      && config.port == 8545
      && config.genesisBalance == 10_000_000_000_000_000_000_000
      && config.accountGenerator == AccountGenerator(10, DEFAULT_MNEMONIC, None, CHAIN_ID)
      && EffectiveDerivationPath(config.accountGenerator) == "m/44'/60'/0'/0/"
      && config.chainId == CHAIN_ID
      && config.ethRpcUrl.None? && config.blockTime.None? && !config.noMining
  {
  }
}
