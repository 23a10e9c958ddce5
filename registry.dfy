/**
 * The chain registry of the wallet route: the closed table from chain code to
 * wallet-core coin type (`COIN_TYPE_MAP`). Coin types are opaque identifiers, so they
 * are a datatype with one constructor per wallet-core coin type the table uses.
 */
module ChainRegistry {
  import opened Wrappers

  datatype CoinType =
    | Ethereum | Polygon | SmartChain | AvalancheCChain | Fantom | Bitcoin | Dogecoin
    | Cosmos | Near | Sui | Sei | Tron | Solana

  const CoinTypeMap: map<string, CoinType> := map[
    "ETH" := Ethereum,
    "MATIC" := Polygon,
    "BNB" := SmartChain,
    "AVAX" := AvalancheCChain,
    "FTM" := Fantom,
    "BTC" := Bitcoin,
    "DOGE" := Dogecoin,
    "ATOM" := Cosmos,
    "NEAR" := Near,
    "SUI" := Sui,
    "SEI" := Sei,
    "TRX" := Tron,
    "SOL" := Solana,
    "OM" := Ethereum  // an ERC-20 token: derived with the Ethereum coin type
  ]

  const ChainCodes: set<string> :=
    {"ETH", "MATIC", "BNB", "AVAX", "FTM", "BTC", "DOGE", "ATOM", "NEAR", "SUI", "SEI", "TRX", "SOL", "OM"}

  /** The registry is closed: exactly these fourteen codes. */
  lemma RegistryIsClosed()
    ensures CoinTypeMap.Keys == ChainCodes
    ensures |ChainCodes| == 14
  {
    RegistryKeys();
    RegistrySize();
  }

  lemma RegistryKeys()
    ensures CoinTypeMap.Keys == ChainCodes
  {
  }

  lemma RegistrySize()
    ensures |ChainCodes| == 14
  {
    CodesSplit();
    SplitSize();
  }

  /** The fourteen codes: twelve of three or four letters, then OM and MATIC. */
  lemma CodesSplit()
    ensures ChainCodes == {"ETH", "BNB", "FTM", "BTC", "SUI", "SEI", "TRX", "SOL", "AVAX", "DOGE", "ATOM", "NEAR"} + {"OM"} + {"MATIC"}
  {
  }

  lemma SplitSize()
    ensures |{"ETH", "BNB", "FTM", "BTC", "SUI", "SEI", "TRX", "SOL", "AVAX", "DOGE", "ATOM", "NEAR"} + {"OM"} + {"MATIC"}| == 14
  {
    WithOm();
    SizesAdd({"ETH", "BNB", "FTM", "BTC", "SUI", "SEI", "TRX", "SOL", "AVAX", "DOGE", "ATOM", "NEAR"} + {"OM"}, {"MATIC"});
  }

  lemma WithOm()
    ensures |{"ETH", "BNB", "FTM", "BTC", "SUI", "SEI", "TRX", "SOL", "AVAX", "DOGE", "ATOM", "NEAR"} + {"OM"}| == 13
  {
    ShortCodes();
    SizesAdd({"ETH", "BNB", "FTM", "BTC", "SUI", "SEI", "TRX", "SOL", "AVAX", "DOGE", "ATOM", "NEAR"}, {"OM"});
  }

  lemma ShortCodes()
    ensures |{"ETH", "BNB", "FTM", "BTC", "SUI", "SEI", "TRX", "SOL", "AVAX", "DOGE", "ATOM", "NEAR"}| == 12
  {
    var three := {"ETH", "BNB", "FTM", "BTC", "SUI", "SEI", "TRX", "SOL"};
    var four := {"AVAX", "DOGE", "ATOM", "NEAR"};
    ThreeLetterCodes();
    FourLetterCodes();
    SizesAdd(three, four);
    assert three + four == {"ETH", "BNB", "FTM", "BTC", "SUI", "SEI", "TRX", "SOL", "AVAX", "DOGE", "ATOM", "NEAR"};
  }

  lemma ThreeLetterCodes()
    ensures |{"ETH", "BNB", "FTM", "BTC", "SUI", "SEI", "TRX", "SOL"}| == 8
  {
    var a := {"ETH", "BNB", "FTM", "BTC"};
    var b := {"SUI", "SEI", "TRX", "SOL"};
    assert |a| == 4;
    assert |b| == 4;
    assert a !! b;
    assert {"ETH", "BNB", "FTM", "BTC", "SUI", "SEI", "TRX", "SOL"} == a + b;
  }

  lemma FourLetterCodes()
    ensures |{"AVAX", "DOGE", "ATOM", "NEAR"}| == 4
  {
  }

  /** Codes of different lengths differ, so sets of them with no length in common are disjoint. */
  lemma SizesAdd(a: set<string>, b: set<string>)
    requires forall x, y :: x in a && y in b ==> |x| != |y|
    ensures |a + b| == |a| + |b|
  {
    assert a !! b;
  }

  /** `OM` is derived exactly as `ETH` is, and it is the only code sharing another's coin type. */
  lemma OnlyOmSharesACoinType(a: string, b: string)
    requires a in CoinTypeMap && b in CoinTypeMap && a != b
    ensures CoinTypeMap[a] == CoinTypeMap[b] <==> {a, b} == {"ETH", "OM"}
  {
  }

  /** The registry lookup the route relies on: a coin type exactly for the registered codes. */
  function Lookup(code: string): (r: Option<CoinType>)
    ensures r.Some? <==> code in ChainCodes
    ensures r.Some? ==> r.value == CoinTypeMap[code]
  {
    if code in CoinTypeMap then Some(CoinTypeMap[code]) else None
  }

  /** A code that arrives as JavaScript `undefined` is looked up as the key "undefined". */
  function LookupArg(code: Option<string>): (r: Option<CoinType>)
    ensures r.Some? <==> code.Some? && code.value in ChainCodes
    ensures r.Some? ==> code.value in CoinTypeMap && r.value == CoinTypeMap[code.value]
  {
    if code.None? then Lookup("undefined") else Lookup(code.value)
  }

  // ---- The lookup as written: a property read on a plain object literal ----

  /** The members every object literal inherits from `Object.prototype`. */
  const ObjectPrototypeMembers: set<string> := {
    "constructor", "hasOwnProperty", "isPrototypeOf", "propertyIsEnumerable",
    "toLocaleString", "toString", "valueOf", "__proto__",
    "__defineGetter__", "__defineSetter__", "__lookupGetter__", "__lookupSetter__"
  }

  /** What `COIN_TYPE_MAP[key]` evaluates to. */
  datatype PropertyValue = OwnCoinType(coinType: CoinType) | InheritedMember | Undefined

  function CoinTypeMapProperty(key: string): (v: PropertyValue)
    ensures v.OwnCoinType? <==> key in ChainCodes
    ensures v.OwnCoinType? ==> key in CoinTypeMap && v.coinType == CoinTypeMap[key]
    ensures v.Undefined? <==> key !in ChainCodes && key !in ObjectPrototypeMembers
  {
    if key in CoinTypeMap then OwnCoinType(CoinTypeMap[key])
    else if key in ObjectPrototypeMembers then InheritedMember
    else Undefined
  }

  /** The route's guard `coinType !== undefined` (and its negation `=== undefined`). */
  predicate PassesUndefinedCheck(key: string)
  {
    !CoinTypeMapProperty(key).Undefined?
  }

  /** As written, a code outside the registry such as "toString" passes the guard. */
  lemma InheritedMemberPassesGuard()
    ensures "toString" !in ChainCodes
    ensures PassesUndefinedCheck("toString")
    ensures Lookup("toString").None?
  {
    assert CoinTypeMapProperty("toString") == InheritedMember;
  }

  /** The corrected lookup admits exactly the codes the guard admits, minus the inherited members. */
  lemma LookupIsGuardWithoutInherited(key: string)
    ensures Lookup(key).Some? <==> PassesUndefinedCheck(key) && key !in ObjectPrototypeMembers
  {
  }
}
