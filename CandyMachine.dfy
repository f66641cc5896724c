/**
 * The part of the candy machine's on-chain state the page reads. The program
 * client that fetches and decodes it (src/candy-machine.ts) is not part of this model.
 */
module CandyMachine {
  import opened Wrappers
  import opened Utils

  /** `whitelistMintSettings`: the whitelist token's mint and the optional discount price in base units. */
  datatype WhitelistMintSettings = WhitelistMintSettings(mint: PublicKey, discountPrice: Option<nat>)

  /** `candy.state`, with prices in the smallest unit of their currency. */
  datatype CandyState = CandyState(
    itemsAvailable: int,
    itemsRedeemed: int,
    itemsRemaining: int,
    price: nat,
    tokenMint: Option<PublicKey>,
    whitelistMintSettings: Option<WhitelistMintSettings>,
    isSoldOut: bool,
    hasGatekeeper: bool,
    goLiveDate: Option<int>)
}
