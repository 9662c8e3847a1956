# Anvil launch arguments, node configuration and Ctrl-C shutdown

A Dafny model of the launcher of `anvil`, Foundry's local Ethereum development node
(`anvil/src/cmd.rs`). The launcher does three things, and the model has one part for each:

* **Argument model** (`args.dfy`, module `Args`). The command line is a record of
  optional fields (`RawArgs`). `Validate` turns it into the parsed `NodeArgs`, or into a
  `UsageError`. It checks the integer widths (`u16` port, `u64` everything else).
  `--no-mining` conflicts with `--block-time`. `--fork-block-number`,
  `--fork-retry-backoff` and `--no-storage-caching` each require `--fork-url`. Absent
  options get their defaults: port 8545, 10 accounts, 10000 ether each, hardfork `latest`,
  order `fees`. `Violations` is an independent definition of everything that is wrong with
  a command line. `Validate` succeeds exactly when that set is empty, and otherwise reports
  one of its members.
* **Configuration builder** (`build.dfy`, module `Build`). `IntoNodeConfig` is
  `into_node_config` and `AccountGeneratorOf` is `account_generator`. Both are pure
  functions into plain records (`Config.NodeConfig`, `Generator.AccountGenerator`).
  The genesis balance is a saturating 256-bit multiply (`Primitives.SaturatingMul`) of the
  `u64` ether balance by 10^18. The model proves that this multiply never saturates.
  The chain id is resolved the same way in both places, and the model proves the two agree.
* **Shutdown coordinator** (`shutdown.dfy`, module `Shutdown`). `CtrlCHandler` holds the
  `AtomicUsize` counter that the handler increments (it wraps around, as `fetch_add`
  does). Only the interrupt that finds the counter at zero flushes the fork cache, and only
  if a fork exists; then it exits with status 0. The flush and the exit are recorded as
  `Effect` values. `Responses` is the effect of a run of interrupts, and the lemmas show
  that the cleanup happens once for up to 2^64 interrupts.

`wrappers.dfy` holds Rust's `Option` and `Result`. `primitives.dfy` holds the integer
widths and the foreign types, which the launcher only carries around (`Hardfork`,
`TransactionOrder`, `IpAddr`, `ServerConfig`, `Duration`).

Two consequences of the code are easy to miss:

* The ether balance is a `u64` (anvil/src/cmd.rs:47), so the saturating conversion at
  anvil/src/cmd.rs:123 can never saturate, because (2^64 - 1) * 10^18 < 2^256. The largest
  balance gives the exact product (`Build.GenesisBalanceExamples`), not the 256-bit maximum.
* `--block-time 0` is accepted. The option is a plain `Option<u64>` (anvil/src/cmd.rs:86),
  with no positivity check.

## Model

| member | source | states |
|---|---|---|
| `Primitives.SaturatingMul` | anvil/src/cmd.rs:123 | the result never exceeds the true product; it equals the product exactly when the product fits in 256 bits, and is the 256-bit maximum otherwise |
| `Primitives.WrappingIncrement` | anvil/src/cmd.rs:170 | `fetch_add(1)` stores one more than before, and wraps to zero exactly from the largest `usize` |
| `Args.FirstOutOfRange` | anvil/src/cmd.rs:23-47 | reports nothing exactly when every numeric option fits its integer type; otherwise it reports the range error of the first option, in declaration order, that does not fit |
| `Args.Validate` | anvil/src/cmd.rs:18-119 | succeeds iff the command line has no violation (range, conflict, missing `--fork-url`); a failure is one of the violations; accepted arguments are well formed; absent port, accounts, balance, hardfork and order take the defaults 8545, 10, 10000, `latest`, `fees`; every value given on the command line, including the mnemonic, derivation path, host, block time, config-out, switches, server options and all fork and environment options, is kept unchanged |
| `Args.MiningFlagsExclusive` | anvil/src/cmd.rs:78-101 | with everything else valid, validation accepts iff `--no-mining` and `--block-time` are not both given; the refusal names both flags |
| `Args.ForkOptionsRequireForkUrl` | anvil/src/cmd.rs:200-222 | with a fork URL, the three fork-only options are accepted; without one, each that is given is a violation naming itself and `--fork-url`, and validation fails |
| `Args.ValidateExplicit` | anvil/src/cmd.rs:18-119 | spelling out an argument set on the command line is accepted iff the set satisfies the cross-field constraints, and then it gives back exactly that set |
| `Args.DefaultArguments` | anvil/src/cmd.rs:23-118 | an empty command line is accepted and gives port 8545, 10 accounts, 10000 ether, `latest`, `fees`, no fork, interval mining off, mining on |
| `Build.GenesisBalanceExact` | anvil/src/cmd.rs:123 | for every `u64` balance, the saturating conversion equals balance * 10^18 and stays below the 256-bit maximum |
| `Build.GenesisBalanceExamples` | anvil/src/cmd.rs:41-47 | 1 ether is 10^18 wei; the default 10000 ether is 10^22 wei; the largest `u64` balance converts exactly |
| `Build.AccountGeneratorOf` | anvil/src/cmd.rs:146-157 | the count is the account number; an explicit mnemonic overrides the default one; the derivation path is set only when one is given (otherwise `m/44'/60'/0'/0/`); the chain id is the explicit one or `CHAIN_ID` |
| `Build.IntoNodeConfig` | anvil/src/cmd.rs:122-144 | the config's account generator is the one `account_generator` assembles (count, phrase and path precedence carry over); the genesis balance is exactly balance * 10^18; the config's chain id equals its account generator's, and both are the explicit chain id or `CHAIN_ID`; the block time in seconds becomes a whole-second duration |
| `Build.PassThrough` | anvil/src/cmd.rs:125-143 | port, gas limit, gas price, base fee, fork URL, fork block number, `no_storage_caching` flag, host, silent, config-out, hardfork, order, no-mining and server options reach the config unchanged |
| `Build.ConfigDeterminedByArgs` | anvil/src/cmd.rs:122-144 | two argument sets give equal configs iff they differ at most in the retry backoff, in spelling out the default mnemonic, and in spelling out the default chain id |
| `Build.RetryBackoffIgnored` | anvil/src/cmd.rs:122-144 | `fork_retry_backoff` is never read: changing it leaves the config unchanged |
| `Build.ValidatedConfigConsistent` | anvil/src/cmd.rs:95-101 | a config built from validated arguments never asks for both disabled and interval mining, and has no fork block number and no `no_storage_caching` flag without a fork URL |
| `Build.DefaultConfig` | anvil/src/cmd.rs:122-157 | an empty command line gives port 8545, a 10^22-wei genesis balance, and ten accounts from the default mnemonic on the default path with the default chain id |
| `Shutdown.Response` | anvil/src/cmd.rs:170-179 | an interrupt that finds the counter raised does nothing; the first one ends with exit status 0, and flushes the fork cache first exactly when a fork exists |
| `Shutdown.ResponsesSplit` | anvil/src/cmd.rs:169-180 | n interrupts and then m more have the effects of the two runs one after the other, the second starting from the advanced counter |
| `Shutdown.LaterInterruptsInert` | anvil/src/cmd.rs:170-171 | interrupts that find the counter raised, without wrapping it, have no effect |
| `Shutdown.CleanupAtMostOnce` | anvil/src/cmd.rs:167-179 | any 1 to 2^64 interrupts from a fresh counter flush at most once (once iff a fork exists) and exit exactly once |
| `Shutdown.CounterWrapRearms` | anvil/src/cmd.rs:167-171 | the interrupt after 2^64 others finds the wrapped counter at zero and would run the cleanup a second time |
| `Shutdown.CtrlCHandler.constructor` | anvil/src/cmd.rs:166-167 | the counter starts at zero with no effects, and the handler remembers whether a fork exists |
| `Shutdown.CtrlCHandler.OnInterrupt` | anvil/src/cmd.rs:169-180 | the counter is incremented with wrap-around; the effects grow by the response to its previous value; after 1 to 2^64 interrupts they are exactly one cleanup |

## Left out

- clap's parsing mechanics, help text, aliases and error wording are not modelled. Only the constraints and defaults the declarations encode are modelled. When several violations are present, `Validate` reports the first in a fixed order (range, conflict, missing fork URL). Its contract promises only that the error is one of the violations.
- The `ANVIL_IP_ADDR` fallback for `--host` is left out, because it reads the environment. `RawArgs.host` is the value after that fallback.
- Parsing of `Hardfork`, `TransactionOrder`, `IpAddr` and `ServerConfig` belongs to other crates. Each is an opaque record holding its selector text. The server options are carried through unchanged.
- `NodeConfig`'s setters live outside this file. `NodeConfig` is a plain record whose fields hold the values handed to the setters. That includes the `no_storage_caching` flag given to `with_storage_caching` (field `noStorageCachingArg`). Which polarity the setter gives it inside the node is not modelled. Fields that `NodeConfig::default()` sets and the launcher never touches are not represented.
- `AccountGenerator` key derivation (BIP-39 and BIP-32/44) is not modelled. The generator is the record of its settings. The phrase and chain id that `AccountGenerator::new` starts from are not visible here. The launcher always overwrites them, so `NewGenerator`'s values for them are placeholders.
- `CHAIN_ID` (31337), `DEFAULT_MNEMONIC` and `WEI_IN_ETHER` (10^18) are defined outside this file. The model assumes their usual values. The default derivation path `m/44'/60'/0'/0/` is taken from the `--derivation-path` help text.
- `usize` is taken to be 64 bits wide. On a 32-bit target, `accounts as usize` would truncate, and the counter would wrap after 2^32 interrupts.
- `crate::spawn`, awaiting the node handle, the `ctrlc` handler registration, real atomicity and concurrency, `std::process::exit` and the fork database's `flush_cache` are left out. They are I/O and concurrency. Interrupts are taken one at a time in the order the atomic increment serialises them, and the flush and the exit are recorded effects. Because an exit is only recorded, later interrupts are still delivered to the model.
- The trace log line in the handler is not modelled.
