/**
 * Addresses: the endpoints of an atomic transaction. Every address is an object, and the
 * pipeline compares some of them by identity (`===`), so `Address` is a class whose fields
 * never change; `toString()` gives the textual identity that `equal` compares.
 */
module Addresses {

  /** `SupportedBlockchain`. */
  datatype Chain = Algorand | Bitcoin | Ethereum | Polygon

  function ChainName(c: Chain): string {
    match c
    case Algorand => "algorand"
    case Bitcoin => "bitcoin"
    case Ethereum => "ethereum"
    case Polygon => "polygon"
  }

  /**
   * `SupportedPlatform`, plus the `Celsius` member that the Celsius mapper reads. The enum has
   * no such member, so the value read is `undefined` and prints as that word.
   */
  datatype Platform = KuCoin | Coinbase | Binance | Celsius

  function PlatformName(p: Platform): string {
    match p
    case KuCoin => "kucoin"
    case Coinbase => "coinbase"
    case Binance => "binance"
    case Celsius => "undefined"
  }

  /** The address classes of the repository; `EthereumLike` is not an `Address` subclass there. */
  datatype AddressKind =
    | Decentralized(chain: Chain, address: string)
    | PlatformAccount(platform: Platform, nickname: string)
    | Void(note: string)
    | BankAccount
    | EthereumLike(ethChain: Chain, ethAddress: string)

  class Address {
    const kind: AddressKind
    /** Whether the address belongs to the user; `undefined` on the kinds without the field. */
    const controlled: bool

    constructor (kind: AddressKind, controlled: bool)
      ensures this.kind == kind && this.controlled == controlled
    {
      this.kind := kind;
      this.controlled := controlled;
    }
  }

  /** `toString()` of each address class. */
  function KindString(k: AddressKind): string {
    match k
    case Decentralized(chain, address) => ChainName(chain) + "-" + address
    case PlatformAccount(platform, nickname) => PlatformName(platform) + "-" + nickname
    case Void(note) => "Void - " + note
    case BankAccount => "BankAccount"
    // EthereumLikeAddress defines no `toString`, so it prints as a plain object.
    case EthereumLike(_, _) => "[object Object]"
  }

  function AddressString(a: Address): string {
    KindString(a.kind)
  }
}
