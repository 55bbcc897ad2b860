/** The wallet-connection dialog: which of the wallet library's connectors are
    offered, in which order, and with which label, hint and icon. Every decision
    looks at the connector's name lower-cased, a missing name counting as "". */
module ConnectWalletModal {
  import opened Types
  import opened Strings
  import opened StableSort

  /** A connector as the dialog sees it: an id and an optional display name. */
  datatype Connector = Connector(id: string, name: Option<string>)

  /** `(c.name || "").toLowerCase()`. */
  function Key(c: Connector): string {
    Lower(c.name.GetOr(""))
  }

  const WalletConnectLabel: string := "WalletConnect"
  const CoinbaseLabel: string := "Coinbase Wallet"
  const InjectedLabel: string := "Browser Wallet (MetaMask/Rabby)"

  /** `connectorLabel`: a fixed label for the three known kinds, tested in the
      order walletconnect, coinbase, injected; otherwise the original name, which
      may be missing. */
  function Label(c: Connector): (l: Option<string>)
    ensures Includes(Key(c), "walletconnect") ==> l == Some(WalletConnectLabel)
    ensures !Includes(Key(c), "walletconnect") && Includes(Key(c), "coinbase") ==> l == Some(CoinbaseLabel)
    ensures !Includes(Key(c), "walletconnect") && !Includes(Key(c), "coinbase") && Includes(Key(c), "injected")
            ==> l == Some(InjectedLabel)
    ensures !Allowed(c) ==> l == c.name
  {
    var n := Key(c);
    if Includes(n, "walletconnect") then Some(WalletConnectLabel)
    else if Includes(n, "coinbase") then Some(CoinbaseLabel)
    else if Includes(n, "injected") then Some(InjectedLabel)
    else c.name
  }

  /** `connectorHint`: "" for names of no known kind. */
  function Hint(c: Connector): (h: string)
    ensures Includes(Key(c), "walletconnect") ==> h == WalletConnectHint
    ensures !Includes(Key(c), "walletconnect") && Includes(Key(c), "coinbase") ==> h == CoinbaseHint
    ensures !Includes(Key(c), "walletconnect") && !Includes(Key(c), "coinbase") && Includes(Key(c), "injected")
            ==> h == InjectedHint
    ensures !Allowed(c) <==> h == ""
  {
    var n := Key(c);
    if Includes(n, "walletconnect") then WalletConnectHint
    else if Includes(n, "coinbase") then CoinbaseHint
    else if Includes(n, "injected") then InjectedHint
    else ""
  }

  const WalletConnectHint: string := "QR / Mobile wallets"
  const CoinbaseHint: string := "Good mobile + extension"
  const InjectedHint: string := "MetaMask, Rabby, Brave Wallet" + ['\U{2026}']

  const PurseIcon: string := ['\U{1F45B}']
  const WalletConnectIcon: string := ['\U{1F517}']
  const CoinbaseIcon: string := ['\U{1F7E6}']
  const InjectedIcon: string := ['\U{1F98A}']

  /** `connectorIcon`: the purse for names of no known kind. */
  function Icon(c: Connector): (i: string)
    ensures Includes(Key(c), "walletconnect") ==> i == WalletConnectIcon
    ensures !Includes(Key(c), "walletconnect") && Includes(Key(c), "coinbase") ==> i == CoinbaseIcon
    ensures !Includes(Key(c), "walletconnect") && !Includes(Key(c), "coinbase") && Includes(Key(c), "injected")
            ==> i == InjectedIcon
    ensures !Allowed(c) <==> i == PurseIcon
  {
    var n := Key(c);
    if Includes(n, "walletconnect") then WalletConnectIcon
    else if Includes(n, "coinbase") then CoinbaseIcon
    else if Includes(n, "injected") then InjectedIcon
    else PurseIcon
  }

  /** The filter: the name mentions one of the three known kinds. */
  predicate Allowed(c: Connector) {
    var n := Key(c);
    Includes(n, "injected") || Includes(n, "coinbase") || Includes(n, "walletconnect")
  }

  /** `score`: injected first, then coinbase, then walletconnect, tested in that
      order; 99 for anything else. */
  function SortKey(c: Connector): (k: int)
    ensures Includes(Key(c), "injected") ==> k == 1
    ensures !Includes(Key(c), "injected") && Includes(Key(c), "coinbase") ==> k == 2
    ensures !Includes(Key(c), "injected") && !Includes(Key(c), "coinbase") && Includes(Key(c), "walletconnect")
            ==> k == 3
    ensures Allowed(c) <==> 1 <= k <= 3
    ensures !Allowed(c) <==> k == 99
  {
    var n := Key(c);
    if Includes(n, "injected") then 1
    else if Includes(n, "coinbase") then 2
    else if Includes(n, "walletconnect") then 3
    else 99
  }

  /** `connectors.filter(...)`: the allowed connectors in their original order. */
  function FilterAllowed(cs: seq<Connector>): (r: seq<Connector>)
    ensures |r| <= |cs|
    ensures forall c :: c in r <==> c in cs && Allowed(c)
    ensures forall i :: 0 <= i < |r| ==> 1 <= SortKey(r[i]) <= 3
  {
    if cs == [] then []
    else (if Allowed(cs[0]) then [cs[0]] else []) + FilterAllowed(cs[1..])
  }

  /** Filtering a concatenation filters each part, so the kept connectors stay in
      the library's order. */
  lemma {:induction false} FilterAllowedAppend(a: seq<Connector>, b: seq<Connector>)
    ensures FilterAllowed(a + b) == FilterAllowed(a) + FilterAllowed(b)
    decreases |a|
  {
    if a == [] {
      assert a + b == b;
    } else {
      assert (a + b)[0] == a[0];
      assert (a + b)[1..] == a[1..] + b;
      FilterAllowedAppend(a[1..], b);
    }
  }

  /** For each of the three keys the filter keeps every connector with that key,
      in the library's order; no connector with another key survives. */
  lemma {:induction false} FilterAllowedByKey(cs: seq<Connector>, k: int)
    ensures WithKey(FilterAllowed(cs), SortKey, k) == if 1 <= k <= 3 then WithKey(cs, SortKey, k) else []
  {
    if cs != [] {
      FilterAllowedByKey(cs[1..], k);
      var head := if Allowed(cs[0]) then [cs[0]] else [];
      var f := head + FilterAllowed(cs[1..]);
      assert FilterAllowed(cs) == f;
      if Allowed(cs[0]) {
        assert f[0] == cs[0] && f[1..] == FilterAllowed(cs[1..]);
      } else {
        assert f == FilterAllowed(cs[1..]);
      }
    }
  }

  /** `filtered`: the allowed connectors ordered by their key; connectors with the
      same key keep their original order. */
  function Filtered(cs: seq<Connector>): (r: seq<Connector>)
    ensures multiset(r) == multiset(FilterAllowed(cs))
    ensures forall c :: c in r <==> c in cs && Allowed(c)
    ensures forall i, j :: 0 <= i < j < |r| ==> SortKey(r[i]) <= SortKey(r[j])
  {
    var a := FilterAllowed(cs);
    SortPermutes(a, SortKey);
    SortSorted(a, SortKey);
    var r := SortBy(a, SortKey);
    assert forall c :: c in r <==> c in multiset(r);
    assert forall c :: c in a <==> c in multiset(a);
    r
  }

  /** Within each of the three keys the dialog lists exactly the library's
      connectors with that key, in the order in which the library lists them. */
  lemma {:induction false} FilteredKeepsOrder(cs: seq<Connector>, k: int)
    ensures WithKey(Filtered(cs), SortKey, k) == if 1 <= k <= 3 then WithKey(cs, SortKey, k) else []
  {
    SortStable(FilterAllowed(cs), SortKey, k);
    FilterAllowedByKey(cs, k);
  }

  /** A connector without a name is treated as one named "": it is not offered,
      has no label, the empty hint and the purse icon. */
  lemma {:induction false} MissingNameIsEmpty(id: string)
    ensures Key(Connector(id, None)) == ""
    ensures !Allowed(Connector(id, None))
    ensures Label(Connector(id, None)) == None
    ensures Hint(Connector(id, None)) == "" && Icon(Connector(id, None)) == PurseIcon
  {
    var c := Connector(id, None);
    assert Key(c) == "";
    assert !Includes("", "injected") && !Includes("", "coinbase") && !Includes("", "walletconnect");
  }

  /** Label, hint and icon test walletconnect first while the order tests injected
      first: a name mentioning both is labelled WalletConnect yet sorted to the
      front with the injected connectors. */
  lemma {:induction false} LabelAndOrderDisagree(c: Connector)
    requires Includes(Key(c), "walletconnect") && Includes(Key(c), "injected")
    ensures Label(c) == Some(WalletConnectLabel) && SortKey(c) == 1
  {
  }
}
