/**
 * The node configuration, as a plain record of the values the launcher hands
 * to its `with_*` and `set_*` setters. Each field holds exactly the value
 * passed to the setter of the same name; what the node does with it is not
 * part of this model.
 */
module Config {
  import opened Wrappers
  import opened Primitives
  import opened Generator

  datatype NodeConfig = NodeConfig(
    gasLimit: Option<U64>,
    gasPrice: Option<U64>,
    hardfork: Hardfork,
    blockTime: Option<Duration>,
    noMining: bool,
    accountGenerator: AccountGenerator,
    genesisBalance: U256,
    port: U16,
    ethRpcUrl: Option<string>,
    baseFee: Option<U64>,
    forkBlockNumber: Option<U64>,
    /** the `no_storage_caching` flag, as handed to `with_storage_caching` */
    noStorageCachingArg: bool,
    serverConfig: ServerConfig,
    host: Option<IpAddr>,
    silent: bool,
    configOut: Option<string>,
    chainId: U64,
    transactionOrder: TransactionOrder)
}
