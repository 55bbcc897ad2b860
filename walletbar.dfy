/** The wallet bar: the connected address in short form, the wrong-network test,
    and the flag that shows the connection dialog. The connection state and the
    current chain id come from the wallet library and arrive as parameters. */
module Walletbar {
  import opened Types
  import opened Strings

  const BaseChainId: int := 8453
  const BaseSepoliaChainId: int := 84532

  /** The chain the app expects: Base when the build's network setting is "base",
      Base Sepolia for any other setting. */
  function ExpectedChainId(network: string): (id: int)
    ensures network == "base" <==> id == BaseChainId
    ensures network != "base" <==> id == BaseSepoliaChainId
  {
    if network == "base" then BaseChainId else BaseSepoliaChainId
  }

  /** `shortAddr`: "" for a missing or empty address, otherwise the address
      shortened as everywhere else in the app. */
  function ShortAddr(a: Option<string>): (r: string)
    ensures a.None? || a.value == [] ==> r == []
    ensures a.Some? && |a.value| >= 10 ==> r == a.value[..6] + [Ellipsis] + a.value[|a.value| - 4..]
    ensures a.Some? && a.value != [] ==> r == ShortAddress(a.value)
    ensures a.Some? && a.value != [] ==> |r| == Min(6, |a.value|) + 1 + Min(4, |a.value|)
  {
    match a
    case None => []
    case Some(s) =>
      if s == [] then []
      else ShortAddress(s)
  }

  /** `wrongChain`: connected to a chain other than the expected one; never while
      disconnected. */
  predicate WrongChain(isConnected: bool, chainId: int, network: string) {
    isConnected && chainId != ExpectedChainId(network)
  }

  /** A connected wallet on the expected chain is never flagged, and one on any
      other chain always is. */
  lemma {:induction false} WrongChainCases(chainId: int, network: string)
    ensures !WrongChain(false, chainId, network)
    ensures WrongChain(true, chainId, network) <==>
              (network == "base" && chainId != BaseChainId) || (network != "base" && chainId != BaseSepoliaChainId)
  {
  }

  /** The bar's own state: whether the connection dialog is open. */
  class Bar {
    var open: bool

    constructor ()
      ensures !open
    {
      open := false;
    }

    /** The Connect Wallet button. */
    method OpenDialog()
      modifies this
      ensures open
    {
      open := true;
    }

    /** The dialog's close callback. */
    method CloseDialog()
      modifies this
      ensures !open
    {
      open := false;
    }
  }
}
