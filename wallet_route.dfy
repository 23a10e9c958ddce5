/**
 * The wallet API route: one POST endpoint that dispatches on `action`. Each action is
 * a function from the provider and the request parameters to a response; the
 * address-derivation loop is also written as the method it is in the route and proved
 * equal to the reference function. `RouteModule` holds the module-level
 * `coreInitialized` flag.
 */
module WalletRoute {
  import opened Wrappers
  import opened Hex
  import opened AsciiCase
  import opened ChainRegistry
  import opened KeyProvider

  /** The request's `params`; a None field is absent (`undefined`). */
  datatype Params = Params(
    strength: Option<int>,
    mnemonic: MnemonicArg,
    chains: Option<seq<string>>,
    chain: Option<string>,
    message: Option<string>)

  /** The parsed request body `{ action, params }`. */
  datatype RequestBody = RequestBody(action: Option<string>, params: Option<Params>)

  /** The JSON bodies the route answers with. */
  datatype Body =
    | MnemonicBody(mnemonic: string)
    | ValidityBody(isValid: bool)
    | AddressesBody(addresses: map<string, string>)
    | PrivateKeyBody(privateKey: string)
    | SignatureBody(signature: string, recoveredAddress: string, actualAddress: string, verified: bool)
    | ResetBody(success: bool)
    | ErrorBody(error: string)
    | UnhandledRejection  // the framework's own answer when the handler itself rejects

  datatype Response = Response(status: int, body: Body)

  const DefaultStrength: int := 128

  function Ok(body: Body): Response { Response(200, body) }
  function BadRequest(error: string): Response { Response(400, ErrorBody(error)) }
  const InternalError: Response := Response(500, ErrorBody("Internal server error"))

  /** JavaScript truthiness of a string field: present and non-empty. */
  predicate Truthy(s: Option<string>)
  {
    s.Some? && s.value != ""
  }

  /** `params?.strength || 128`: an absent or zero strength falls back to the default. */
  function StrengthOf(params: Option<Params>): (bits: int)
    ensures params.None? || params.value.strength.None? ==> bits == DefaultStrength
    ensures params.Some? && params.value.strength == Some(0) ==> bits == DefaultStrength
    ensures params.Some? && params.value.strength.Some? && params.value.strength.value != 0 ==>
              bits == params.value.strength.value
  {
    if params.Some? && params.value.strength.Some? && params.value.strength.value != 0
    then params.value.strength.value
    else DefaultStrength
  }

  function GenerateResponse(p: Provider, params: Option<Params>): Response
  {
    match p.generateMnemonic(StrengthOf(params))
    case None => InternalError
    case Some(m) => Ok(MnemonicBody(m))
  }

  function ValidateResponse(p: Provider, params: Option<Params>): Response
  {
    if params.None? then InternalError  // `params.mnemonic` on undefined throws
    else
      match p.isValid(params.value.mnemonic)
      case None => InternalError
      case Some(v) => Ok(ValidityBody(v))
  }

  // ---- deriveAddresses ----

  /** The loop's `getAddressForCoin` throws for this requested code. */
  predicate DerivationThrows(p: Provider, m: MnemonicArg, code: string)
  {
    code in CoinTypeMap && p.addressForCoin(m, CoinTypeMap[code]).None?
  }

  /**
   * The `OM` overwrite after the loop: `addresses['OM'] = addresses['ETH']`. When `ETH`
   * has no entry the assigned value is `undefined`, which the JSON body omits.
   */
  function AliasOm(chains: seq<string>, addresses: map<string, string>): (r: map<string, string>)
    ensures forall c :: c != "OM" ==> (c in r <==> c in addresses)
    ensures forall c :: c != "OM" && c in r ==> r[c] == addresses[c]
    ensures "OM" !in chains ==> ("OM" in r <==> "OM" in addresses) && ("OM" in r ==> r["OM"] == addresses["OM"])
    ensures "OM" in chains ==> ("OM" in r <==> "ETH" in addresses) && ("OM" in r ==> r["OM"] == addresses["ETH"])
  {
    if "OM" !in chains then addresses
    else if "ETH" in addresses then addresses["OM" := addresses["ETH"]]
    else addresses - {"OM"}
  }

  /** The registered requested codes with their provider addresses, before the `OM` overwrite. */
  function LoopResult(p: Provider, m: MnemonicArg, chains: seq<string>): (r: map<string, string>)
    requires forall c :: c in chains ==> !DerivationThrows(p, m, c)
    ensures forall c :: c in r <==> c in chains && c in CoinTypeMap
    ensures forall c :: c in r ==> Some(r[c]) == p.addressForCoin(m, CoinTypeMap[c])
  {
    map c | c in chains && c in CoinTypeMap && !DerivationThrows(p, m, c) :: p.addressForCoin(m, CoinTypeMap[c]).value
  }

  /** One more iteration of the loop adds the next code's address, if it is registered. */
  lemma LoopResultSnoc(p: Provider, m: MnemonicArg, prefix: seq<string>, c: string)
    requires forall d :: d in prefix ==> !DerivationThrows(p, m, d)
    requires !DerivationThrows(p, m, c)
    ensures forall d :: d in prefix + [c] ==> !DerivationThrows(p, m, d)
    ensures LoopResult(p, m, prefix + [c]) ==
              if c in CoinTypeMap then LoopResult(p, m, prefix)[c := p.addressForCoin(m, CoinTypeMap[c]).value]
              else LoopResult(p, m, prefix)
  {
    assert forall d :: d in prefix ==> d in prefix + [c];
  }

  /**
   * Reference definition of the address map `deriveAddresses` answers with, or None
   * when a provider call in the loop throws.
   */
  function Derivation(p: Provider, m: MnemonicArg, chains: seq<string>): (r: Option<map<string, string>>)
    ensures r.None? <==> exists c :: c in chains && DerivationThrows(p, m, c)
    ensures r.Some? ==> forall c :: c in r.value ==> c in chains && c in ChainCodes
    ensures r.Some? ==> forall c :: c in chains && c in ChainCodes && c != "OM" ==>
              c in r.value && Some(r.value[c]) == p.addressForCoin(m, CoinTypeMap[c])
    ensures r.Some? && "OM" in chains ==>
              ("OM" in r.value <==> "ETH" in chains) &&
              ("ETH" in chains ==> r.value["OM"] == r.value["ETH"])
    ensures r.Some? && "OM" !in chains ==> "OM" !in r.value
  {
    if exists c :: c in chains && DerivationThrows(p, m, c) then None
    else
      var loop := LoopResult(p, m, chains);
      assert "ETH" in loop <==> "ETH" in chains;
      Some(AliasOm(chains, loop))
  }

  /** The `chains.forEach` loop and the `OM` overwrite, as the route runs them. */
  method DeriveAddresses(p: Provider, m: MnemonicArg, chains: seq<string>) returns (r: Option<map<string, string>>)
    ensures r == Derivation(p, m, chains)
  {
    var addresses: map<string, string> := map[];
    var i := 0;
    while i < |chains|
      invariant 0 <= i <= |chains|
      invariant forall c :: c in chains[..i] ==> !DerivationThrows(p, m, c)
      invariant addresses == LoopResult(p, m, chains[..i])
    {
      var coinType := Lookup(chains[i]);
      if coinType.Some? {
        var address := p.addressForCoin(m, coinType.value);
        if address.None? {
          assert chains[i] in chains && DerivationThrows(p, m, chains[i]);
          return None;
        }
        addresses := addresses[chains[i] := address.value];
      }
      assert chains[..i + 1] == chains[..i] + [chains[i]];
      LoopResultSnoc(p, m, chains[..i], chains[i]);
      i := i + 1;
    }
    assert chains[..i] == chains;
    ghost var loop := addresses;
    assert !exists c :: c in chains && DerivationThrows(p, m, c);
    if "OM" in chains {
      if "ETH" in addresses {
        addresses := addresses["OM" := addresses["ETH"]];
      } else {
        addresses := addresses - {"OM"};
      }
    }
    assert addresses == AliasOm(chains, loop);
    r := Some(addresses);
  }

  function DeriveResponse(p: Provider, params: Option<Params>): Response
  {
    if params.None? then InternalError
    else
      var ps := params.value;
      match p.isValid(ps.mnemonic)
      case None => InternalError
      case Some(valid) =>
        if !valid then BadRequest("Invalid mnemonic")
        else if !p.createWithMnemonic(ps.mnemonic) then InternalError
        else if ps.chains.None? then InternalError  // `chains.forEach` on undefined throws
        else
          match Derivation(p, ps.mnemonic, ps.chains.value)
          case None => InternalError
          case Some(addresses) => Ok(AddressesBody(addresses))
  }

  // ---- getPrivateKey ----

  function PrivateKeyResponse(p: Provider, params: Option<Params>): Response
  {
    if params.None? then InternalError
    else
      var ps := params.value;
      // the wallet is created before the chain is checked
      if !p.createWithMnemonic(ps.mnemonic) then InternalError
      else
        match LookupArg(ps.chain)
        case None => BadRequest("Unsupported chain")
        case Some(coinType) =>
          match p.keyForCoin(ps.mnemonic, coinType)
          case None => InternalError
          case Some(key) => Ok(PrivateKeyBody(Encode(key)))
  }

  // ---- signMessage ----

  function SignResponse(p: Provider, params: Option<Params>): Response
  {
    if params.None? then InternalError
    else
      var ps := params.value;
      if !Truthy(ps.mnemonic) || !Truthy(ps.message) then BadRequest("Missing mnemonic or message")
      else if !p.createWithMnemonic(ps.mnemonic) then InternalError
      else
        match p.keyForCoin(ps.mnemonic, Ethereum)
        case None => InternalError
        case Some(key) =>
          match p.signMessage(Encode(key), ps.message.value)
          case None => InternalError
          case Some(signature) =>
            match p.verifyMessage(ps.message.value, signature)
            case None => InternalError
            case Some(recovered) =>
              match p.addressForCoin(ps.mnemonic, Ethereum)
              case None => InternalError
              case Some(actual) =>
                Ok(SignatureBody(signature, recovered, actual, EqualIgnoringCase(recovered, actual)))
  }

  /** The actions the switch knows. */
  const Actions: set<string> :=
    {"generateMnemonic", "validateMnemonic", "deriveAddresses", "getPrivateKey", "signMessage", "resetWallet"}

  /**
   * The body of POST inside its try block. `request` is None when `request.json()`
   * throws or the body is `null`; either makes the destructuring throw, hence 500.
   */
  function Handle(p: Provider, request: Option<RequestBody>): (r: Response)
    ensures r.status in {200, 400, 500}
    ensures r.status != 200 <==> r.body.ErrorBody?
    ensures request.Some? && (request.value.action.None? || request.value.action.value !in Actions) ==>
              r == BadRequest("Invalid action")
  {
    if request.None? then InternalError
    else
      var params := request.value.params;
      match request.value.action
      case None => BadRequest("Invalid action")
      case Some(action) =>
        if action == "generateMnemonic" then GenerateResponse(p, params)
        else if action == "validateMnemonic" then ValidateResponse(p, params)
        else if action == "deriveAddresses" then DeriveResponse(p, params)
        else if action == "getPrivateKey" then PrivateKeyResponse(p, params)
        else if action == "signMessage" then SignResponse(p, params)
        else if action == "resetWallet" then Ok(ResetBody(true))
        else BadRequest("Invalid action")
  }

  function Request(action: string, params: Params): Option<RequestBody>
  {
    Some(RequestBody(Some(action), Some(params)))
  }

  // ---- properties of the actions ----

  /** generateMnemonic asks the provider for the given strength, or for 128 bits by default. */
  lemma GenerateUsesStrength(p: Provider, params: Params)
    ensures var r := Handle(p, Request("generateMnemonic", params));
            var bits := if params.strength.None? || params.strength == Some(0) then 128 else params.strength.value;
            r == (if p.generateMnemonic(bits).Some? then Ok(MnemonicBody(p.generateMnemonic(bits).value)) else InternalError)
  {
  }

  /** A mnemonic the provider rejects gives 400 and no address is derived. */
  lemma DeriveRejectsInvalidMnemonic(p: Provider, params: Params)
    requires p.isValid(params.mnemonic) == Some(false)
    ensures Handle(p, Request("deriveAddresses", params)) == BadRequest("Invalid mnemonic")
  {
  }

  /**
   * A successful derivation answers with exactly the addresses of `Derivation`:
   * only registered requested codes, each the provider address for its coin type,
   * and `OM` present only beside `ETH`, with `ETH`'s address.
   */
  lemma DeriveAnswersDerivation(p: Provider, params: Params)
    ensures var r := Handle(p, Request("deriveAddresses", params));
            r.status == 200 <==>
              p.isValid(params.mnemonic) == Some(true) && p.createWithMnemonic(params.mnemonic) &&
              params.chains.Some? && Derivation(p, params.mnemonic, params.chains.value).Some?
    ensures var r := Handle(p, Request("deriveAddresses", params));
            r.status == 200 ==> r.body == AddressesBody(Derivation(p, params.mnemonic, params.chains.value).value)
  {
  }

  /** Unknown codes are skipped without error: adding them to the request changes nothing. */
  lemma {:induction false} UnknownCodesAreSkipped(p: Provider, m: MnemonicArg, chains: seq<string>, unknown: seq<string>)
    requires forall c :: c in unknown ==> c !in ChainCodes
    ensures Derivation(p, m, chains + unknown) == Derivation(p, m, chains)
  {
    var all := chains + unknown;
    assert forall c :: c in all && c in CoinTypeMap ==> c in chains;
    assert forall c :: c in chains ==> c in all;
    if !exists c :: c in chains && DerivationThrows(p, m, c) {
      assert LoopResult(p, m, all) == LoopResult(p, m, chains);
      assert ("OM" in all) == ("OM" in chains);
    }
  }

  /** Both `OM` and `ETH` requested: the answer holds the same address for both. */
  lemma OmWithEthSharesAddress(p: Provider, m: MnemonicArg, chains: seq<string>)
    requires "OM" in chains && "ETH" in chains
    requires forall c :: c in chains ==> !DerivationThrows(p, m, c)
    ensures var a := Derivation(p, m, chains).value;
            "OM" in a && "ETH" in a && a["OM"] == a["ETH"] && Some(a["OM"]) == p.addressForCoin(m, Ethereum)
  {
  }

  /** `OM` requested without `ETH`: the answer has no `OM` entry at all. */
  lemma OmWithoutEthIsDropped(p: Provider, m: MnemonicArg, chains: seq<string>)
    requires "OM" in chains && "ETH" !in chains
    requires forall c :: c in chains ==> !DerivationThrows(p, m, c)
    ensures "OM" !in Derivation(p, m, chains).value
  {
  }

  /** validateMnemonic answers 200 with the provider's verdict, or 500 when the check throws. */
  lemma ValidateAnswers(p: Provider, params: Params)
    ensures Handle(p, Request("validateMnemonic", params)) ==
              match p.isValid(params.mnemonic)
              case Some(v) => Ok(ValidityBody(v))
              case None => InternalError
  {
  }

  /** resetWallet always answers 200 `{ success: true }`, whatever the params. */
  lemma ResetAnswers(p: Provider, params: Option<Params>)
    ensures Handle(p, Some(RequestBody(Some("resetWallet"), params))) == Ok(ResetBody(true))
  {
  }

  /**
   * Every action but generateMnemonic and resetWallet destructures `params`, so a
   * request without params throws inside the try block and gets 500.
   */
  lemma MissingParamsGivesInternalError(p: Provider, action: string)
    requires action in {"validateMnemonic", "deriveAddresses", "getPrivateKey", "signMessage"}
    ensures Handle(p, Some(RequestBody(Some(action), None))) == InternalError
  {
  }

  /** A failed check, wallet creation, missing chain list or derivation in deriveAddresses gives 500. */
  lemma DeriveThrowGivesInternalError(p: Provider, params: Params)
    requires p.isValid(params.mnemonic).None? ||
             (p.isValid(params.mnemonic) == Some(true) &&
              (!p.createWithMnemonic(params.mnemonic) || params.chains.None? ||
               exists c :: c in params.chains.value && DerivationThrows(p, params.mnemonic, c)))
    ensures Handle(p, Request("deriveAddresses", params)) == InternalError
  {
  }

  /** A chain outside the registry gets 400 once the wallet is created. */
  lemma PrivateKeyRejectsUnsupportedChain(p: Provider, params: Params)
    requires p.createWithMnemonic(params.mnemonic)
    requires params.chain.None? || params.chain.value !in ChainCodes
    ensures Handle(p, Request("getPrivateKey", params)) == BadRequest("Unsupported chain")
  {
  }

  /** It never reaches `getKeyForCoin`: the answer is the same whatever that primitive does. */
  lemma PrivateKeyUnsupportedIgnoresKeyForCoin(p: Provider, q: Provider, params: Params)
    requires params.chain.None? || params.chain.value !in ChainCodes
    requires q == p.(keyForCoin := q.keyForCoin)
    ensures Handle(p, Request("getPrivateKey", params)) == Handle(q, Request("getPrivateKey", params))
  {
  }

  /** A failed wallet creation, or a key derivation that throws for a supported chain, gives 500. */
  lemma PrivateKeyThrowGivesInternalError(p: Provider, params: Params)
    requires !p.createWithMnemonic(params.mnemonic) ||
             (params.chain.Some? && params.chain.value in ChainCodes &&
              p.keyForCoin(params.mnemonic, CoinTypeMap[params.chain.value]).None?)
    ensures Handle(p, Request("getPrivateKey", params)) == InternalError
  {
  }

  /** A supported chain answers with the lowercase hex of the key bytes, two digits per byte. */
  lemma PrivateKeyIsLowercaseHex(p: Provider, params: Params)
    requires p.createWithMnemonic(params.mnemonic)
    requires params.chain.Some? && params.chain.value in ChainCodes
    requires p.keyForCoin(params.mnemonic, CoinTypeMap[params.chain.value]).Some?
    ensures var key := p.keyForCoin(params.mnemonic, CoinTypeMap[params.chain.value]).value;
            var r := Handle(p, Request("getPrivateKey", params));
            r.status == 200 && r.body.PrivateKeyBody? &&
            |r.body.privateKey| == 2 * |key| && IsLowerHex(r.body.privateKey) &&
            Decode(r.body.privateKey) == Some(key)
  {
    var key := p.keyForCoin(params.mnemonic, CoinTypeMap[params.chain.value]).value;
    EncodeIsLowerHex(key);
    DecodeEncode(key);
  }

  /** A missing or empty mnemonic or message gives 400. */
  lemma SignRequiresMnemonicAndMessage(p: Provider, params: Params)
    requires !Truthy(params.mnemonic) || !Truthy(params.message)
    ensures Handle(p, Request("signMessage", params)) == BadRequest("Missing mnemonic or message")
  {
  }

  /**
   * A signature answer comes from the Ethereum key and address whatever chain the
   * request names, and `verified` is the case-insensitive comparison of the recovered
   * and the derived address (`SignAnswersComparison` shows a mismatch is still 200).
   */
  lemma SignVerifiedIsCaseInsensitiveMatch(p: Provider, params: Params)
    ensures var r := Handle(p, Request("signMessage", params));
            r.status == 200 ==>
              r.body.SignatureBody? &&
              Truthy(params.mnemonic) && Truthy(params.message) &&
              var key := p.keyForCoin(params.mnemonic, Ethereum);
              key.Some? && Some(r.body.signature) == p.signMessage(Encode(key.value), params.message.value) &&
              Some(r.body.recoveredAddress) == p.verifyMessage(params.message.value, r.body.signature) &&
              Some(r.body.actualAddress) == p.addressForCoin(params.mnemonic, Ethereum) &&
              (r.body.verified <==> EqualIgnoringCase(r.body.recoveredAddress, r.body.actualAddress))
  {
  }

  /**
   * With every primitive returning, signMessage answers 200 whatever the comparison
   * gives: a mismatch is reported as `verified = false`, not as an error.
   */
  lemma SignAnswersComparison(p: Provider, params: Params)
    requires Truthy(params.mnemonic) && Truthy(params.message)
    requires p.createWithMnemonic(params.mnemonic)
    requires p.keyForCoin(params.mnemonic, Ethereum).Some?
    requires var key := p.keyForCoin(params.mnemonic, Ethereum).value;
             var signature := p.signMessage(Encode(key), params.message.value);
             signature.Some? && p.verifyMessage(params.message.value, signature.value).Some? &&
             p.addressForCoin(params.mnemonic, Ethereum).Some?
    ensures var key := p.keyForCoin(params.mnemonic, Ethereum).value;
            var signature := p.signMessage(Encode(key), params.message.value).value;
            var recovered := p.verifyMessage(params.message.value, signature).value;
            var actual := p.addressForCoin(params.mnemonic, Ethereum).value;
            Handle(p, Request("signMessage", params)) ==
              Ok(SignatureBody(signature, recovered, actual, EqualIgnoringCase(recovered, actual)))
  {
  }

  /** A throw anywhere after the argument check of signMessage is caught and gives 500. */
  lemma SignThrowGivesInternalError(p: Provider, params: Params)
    requires Truthy(params.mnemonic) && Truthy(params.message)
    requires var key := p.keyForCoin(params.mnemonic, Ethereum);
             var signature := if key.Some? then p.signMessage(Encode(key.value), params.message.value) else None;
             !p.createWithMnemonic(params.mnemonic) || key.None? || signature.None? ||
             p.verifyMessage(params.message.value, signature.value).None? ||
             p.addressForCoin(params.mnemonic, Ethereum).None?
    ensures Handle(p, Request("signMessage", params)) == InternalError
  {
  }

  /** Sign-then-recover round trip: a provider whose recovery returns the derived address verifies. */
  lemma SignRoundTripVerifies(p: Provider, params: Params)
    requires Truthy(params.mnemonic) && Truthy(params.message)
    requires p.createWithMnemonic(params.mnemonic)
    requires p.keyForCoin(params.mnemonic, Ethereum).Some?
    requires var key := p.keyForCoin(params.mnemonic, Ethereum).value;
             var signature := p.signMessage(Encode(key), params.message.value);
             signature.Some? && p.addressForCoin(params.mnemonic, Ethereum).Some? &&
             p.verifyMessage(params.message.value, signature.value) == p.addressForCoin(params.mnemonic, Ethereum)
    ensures var r := Handle(p, Request("signMessage", params));
            r.status == 200 && r.body.SignatureBody? && r.body.verified
  {
    EqualIgnoringCaseOfLower(p.addressForCoin(params.mnemonic, Ethereum).value);
  }

  /** The module-level state of the route: the wallet-core initialisation flag. */
  class RouteModule {
    var coreInitialized: bool
    /** How many times `walletCore.initialize()` has been called, and how many returned. */
    ghost var initializeCalls: nat
    ghost var initializeSuccesses: nat

    ghost predicate Valid()
      reads this
    {
      initializeSuccesses == (if coreInitialized then 1 else 0) &&
      initializeSuccesses <= initializeCalls
    }

    constructor ()
      ensures Valid() && !coreInitialized && initializeCalls == 0
    {
      coreInitialized := false;
      initializeCalls := 0;
      initializeSuccesses := 0;
    }

    /**
     * `initWalletCore`: calls `initialize` only while the flag is down; `succeeds` is
     * whether that foreign call resolves.
     */
    method InitWalletCore(succeeds: bool) returns (ok: bool)
      requires Valid()
      modifies this
      ensures Valid()
      ensures ok <==> old(coreInitialized) || succeeds
      ensures coreInitialized == ok
      ensures initializeCalls == old(initializeCalls) + (if old(coreInitialized) then 0 else 1)
    {
      if !coreInitialized {
        initializeCalls := initializeCalls + 1;
        if succeeds {
          coreInitialized := true;
          initializeSuccesses := initializeSuccesses + 1;
        }
      }
      ok := coreInitialized;
    }

    /**
     * POST: initialise (outside the try block, so a failing `initialize` rejects the
     * handler), then dispatch. deriveAddresses runs the loop method.
     */
    method Post(p: Provider, initSucceeds: bool, request: Option<RequestBody>) returns (r: Response)
      requires Valid()
      modifies this
      ensures Valid()
      ensures initializeSuccesses <= 1
      ensures old(coreInitialized) ==> initializeCalls == old(initializeCalls) && coreInitialized
      ensures coreInitialized <==> old(coreInitialized) || initSucceeds
      ensures initializeCalls == old(initializeCalls) + (if old(coreInitialized) then 0 else 1)
      ensures r == if old(coreInitialized) || initSucceeds then Handle(p, request) else Response(500, UnhandledRejection)
    {
      var ok := InitWalletCore(initSucceeds);
      if !ok {
        return Response(500, UnhandledRejection);
      }
      if request.Some? && request.value.action == Some("deriveAddresses") && request.value.params.Some? {
        var ps := request.value.params.value;
        var valid := p.isValid(ps.mnemonic);
        if valid.None? {
          r := InternalError;
        } else if !valid.value {
          r := BadRequest("Invalid mnemonic");
        } else if !p.createWithMnemonic(ps.mnemonic) || ps.chains.None? {
          r := InternalError;
        } else {
          var addresses := DeriveAddresses(p, ps.mnemonic, ps.chains.value);
          r := if addresses.Some? then Ok(AddressesBody(addresses.value)) else InternalError;
        }
      } else {
        r := Handle(p, request);
      }
    }
  }
}
