/**
 * The key-derivation provider the route calls: Trust Wallet's wallet-core
 * (`HDWallet`) and ethers. These are foreign code, so the model takes them as a
 * record of functions chosen by the caller. A primitive that may throw returns an
 * Option, with None meaning that it threw.
 */
module KeyProvider {
  import opened Wrappers
  import opened Hex
  import opened ChainRegistry

  /** The mnemonic as the request carries it: None when the field is absent. */
  type MnemonicArg = Option<string>

  datatype Provider = Provider(
    /** `HDWallet.generateMnemonic(strength)` */
    generateMnemonic: int -> Option<string>,
    /** `HDWallet.isValid(mnemonic)` */
    isValid: MnemonicArg -> Option<bool>,
    /** whether `HDWallet.createWithMnemonic(mnemonic)` returns without throwing */
    createWithMnemonic: MnemonicArg -> bool,
    /** `wallet.getAddressForCoin(coinType)` on the wallet created from the mnemonic */
    addressForCoin: (MnemonicArg, CoinType) -> Option<string>,
    /** `wallet.getKeyForCoin(coinType).data()` */
    keyForCoin: (MnemonicArg, CoinType) -> Option<seq<byte>>,
    /** `new ethers.Wallet(privateKeyHex).signMessage(message)` */
    signMessage: (string, string) -> Option<string>,
    /** `ethers.verifyMessage(message, signature)`: the recovered signer address */
    verifyMessage: (string, string) -> Option<string>
  )
}
