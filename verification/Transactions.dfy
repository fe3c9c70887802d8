/** Transactions and block contents.  Signatures, timestamps and nonces are left out of every record. */
module Transactions {
  import opened Amounts

  const MATCH_CHAIN: string := "MATCH"

  datatype Order = Order(
    id: u64, buySymbol: string, amountToSell: u64, amountToBuy: u64, seller: Address)

  datatype ClaimFunds = ClaimFunds(id: u64, address: Address, amount: u64)

  datatype Transfer = Transfer(id: u64, amount: u64, fromAddress: Address, toAddress: Address)

  datatype Freeze = Freeze(id: u64, amount: u64, fromAddress: Address, unfreezeBlock: u64)

  datatype Match = Match(
    matchId: u64,
    sellSymbol: string, sellOrderId: u64, sellerGain: u64,
    buySymbol: string, buyOrderId: u64, buyerLoss: u64,
    transferAmt: u64)

  datatype CancelOrder = CancelOrder(orderSymbol: string, orderId: u64)

  datatype TokenInfo = TokenInfo(symbol: string, totalSupply: u64, decimals: nat)

  datatype CreateToken = CreateToken(info: TokenInfo, creator: Address)

  /** What a block carries: its transactions sorted into one list per type. */
  datatype BlockData =
    | TokenData(orders: seq<Order>, claims: seq<ClaimFunds>, transfers: seq<Transfer>, freezes: seq<Freeze>)
    | MatchData(matches: seq<Match>, cancels: seq<CancelOrder>, creates: seq<CreateToken>)

  /** Any one of some symbols: the order in which a map is visited is not defined. */
  method AnySymbol(symbols: set<string>) returns (symbol: string)
    requires symbols != {}
    ensures symbol in symbols
  {
    symbol :| symbol in symbols;
  }
}
