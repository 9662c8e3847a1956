/**
 * The account generator as the launcher sees it: a record of the settings
 * the node later derives its dev accounts from. Key derivation itself is not
 * part of this model.
 */
module Generator {
  import opened Wrappers
  import opened Primitives

  /** The chain id the node uses when none is given. */
  const CHAIN_ID: U64 := 31337

  /** The publicly known seed phrase used when no mnemonic is given. */
  const DEFAULT_MNEMONIC: string := "test test test test test test test test test test test junk"

  /** The derivation-path prefix the generator uses when none is set. */
  const DEFAULT_DERIVATION_PATH: string := "m/44'/60'/0'/0/"

  /**
   * `derivationPath == None` means that the generator keeps its own default
   * path, `DEFAULT_DERIVATION_PATH`.
   */
  datatype AccountGenerator = AccountGenerator(
    amount: USize,
    phrase: string,
    derivationPath: Option<string>,
    chainId: U64)

  /**
   * `AccountGenerator::new`. The phrase and chain id it starts from are
   * always overwritten by the launcher, so they are placeholders here.
   */
  function NewGenerator(amount: USize): AccountGenerator {
    AccountGenerator(amount, DEFAULT_MNEMONIC, None, CHAIN_ID)
  }

  /** `AccountGenerator::phrase`. */
  function WithPhrase(gen: AccountGenerator, phrase: string): AccountGenerator {
    gen.(phrase := phrase)
  }

  /** `AccountGenerator::chain_id`. */
  function WithChainId(gen: AccountGenerator, chainId: U64): AccountGenerator {
    gen.(chainId := chainId)
  }

  /** `AccountGenerator::derivation_path`. */
  function WithDerivationPath(gen: AccountGenerator, path: string): AccountGenerator {
    gen.(derivationPath := Some(path))
  }

  /** The path template the generator derives child keys under. */
  function EffectiveDerivationPath(gen: AccountGenerator): string {
    gen.derivationPath.GetOr(DEFAULT_DERIVATION_PATH)
  }
}
