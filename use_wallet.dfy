/**
 * The `useWallet` hook: one `WalletState` record held in React state and replaced by
 * each operation. Every mutation's `onSuccess` is one atomic step; its input is what
 * the mutation function produced (None when that call failed, so `onSuccess` does not
 * run). The transitions are pure functions on the record; the `Wallet` class applies them.
 */
module UseWallet {
  import opened Wrappers
  import opened ChainRegistry
  import opened KeyProvider
  import WalletRoute

  datatype WalletState = WalletState(
    mnemonic: Option<string>,
    addresses: map<string, string>,
    selectedChain: string)

  const DefaultChain: string := "ETH"
  const InitialState: WalletState := WalletState(None, map[], DefaultChain)

  /** `!!state.mnemonic`: a non-empty mnemonic is held. */
  predicate SessionLoaded(s: WalletState)
  {
    s.mnemonic.Some? && s.mnemonic.value != ""
  }

  /** generate's and import's `onSuccess`: the new mnemonic, an empty address book. */
  function WithMnemonic(s: WalletState, m: string): (t: WalletState)
    ensures t.mnemonic == Some(m) && t.addresses == map[]
    ensures t.selectedChain == s.selectedChain
    ensures SessionLoaded(t) <==> m != ""
  {
    s.(mnemonic := Some(m), addresses := map[])
  }

  /** derive's `onSuccess`: `{...prev.addresses, ...addresses}`, the new result winning. */
  function WithDerived(s: WalletState, result: map<string, string>): (t: WalletState)
    ensures t.addresses.Keys == s.addresses.Keys + result.Keys
    ensures forall c :: c in result ==> t.addresses[c] == result[c]
    ensures forall c :: c in s.addresses && c !in result ==> t.addresses[c] == s.addresses[c]
    ensures t.mnemonic == s.mnemonic && t.selectedChain == s.selectedChain
  {
    s.(addresses := s.addresses + result)
  }

  function WithSelectedChain(s: WalletState, chain: string): (t: WalletState)
    ensures t.selectedChain == chain
    ensures t.mnemonic == s.mnemonic && t.addresses == s.addresses
  {
    s.(selectedChain := chain)
  }

  datatype ImportOutcome = Imported | InvalidMnemonic | ValidationFailed

  /**
   * importMnemonic: the validator's verdict (None when the validation request failed)
   * decides; a rejected phrase throws 'Invalid mnemonic' before `onSuccess`.
   */
  function ImportStep(s: WalletState, candidate: string, verdict: Option<bool>): (r: (WalletState, ImportOutcome))
    ensures r.1 == Imported <==> verdict == Some(true)
    ensures r.1 == InvalidMnemonic <==> verdict == Some(false)
    ensures r.1 == Imported ==> r.0 == WithMnemonic(s, candidate)
    ensures r.1 != Imported ==> r.0 == s
  {
    match verdict
    case None => (s, ValidationFailed)
    case Some(valid) => if valid then (WithMnemonic(s, candidate), Imported) else (s, InvalidMnemonic)
  }

  class Wallet {
    var state: WalletState

    constructor ()
      ensures state == InitialState && !IsLoaded()
    {
      state := InitialState;
    }

    /** `isLoaded` */
    function IsLoaded(): bool
      reads this
    {
      SessionLoaded(state)
    }

    /** generateMnemonic; `generated` is the mnemonic the service returned. */
    method Generate(generated: Option<string>)
      modifies this
      ensures state == if generated.Some? then WithMnemonic(old(state), generated.value) else old(state)
    {
      if generated.Some? {
        state := WithMnemonic(state, generated.value);
      }
    }

    method Import(candidate: string, verdict: Option<bool>) returns (outcome: ImportOutcome)
      modifies this
      ensures (state, outcome) == ImportStep(old(state), candidate, verdict)
    {
      match verdict {
        case None =>
          outcome := ValidationFailed;
        case Some(valid) =>
          if !valid {
            outcome := InvalidMnemonic;
          } else {
            state := WithMnemonic(state, candidate);
            outcome := Imported;
          }
      }
    }

    /**
     * deriveAddresses; `derived` is the address map the service returned. There is no
     * loaded-session guard: whatever mnemonic the caller passed, its result is merged.
     */
    method Derive(derived: Option<map<string, string>>)
      modifies this
      ensures state == if derived.Some? then WithDerived(old(state), derived.value) else old(state)
    {
      if derived.Some? {
        state := WithDerived(state, derived.value);
      }
    }

    /** setSelectedChain accepts any string, registered or not. */
    method SetSelectedChain(chain: string)
      modifies this
      ensures state == WithSelectedChain(old(state), chain)
    {
      state := WithSelectedChain(state, chain);
    }

    /** clearWallet */
    method Clear()
      modifies this
      ensures state == InitialState && !IsLoaded()
    {
      state := InitialState;
    }
  }

  // ---- properties of the transitions ----

  /** The initial state holds no mnemonic, no addresses, selects ETH and is not loaded. */
  lemma InitialStateIsUnloaded()
    ensures InitialState.mnemonic.None? && InitialState.addresses == map[]
    ensures InitialState.selectedChain == "ETH" && !SessionLoaded(InitialState)
  {
  }

  /** A rejected or failed import leaves everything as it was. */
  lemma ImportFailsClosed(s: WalletState, candidate: string, verdict: Option<bool>)
    requires verdict != Some(true)
    ensures ImportStep(s, candidate, verdict).0 == s
  {
  }

  /** Deriving ETH then BTC keeps both: neither merge erases the other's result. */
  lemma DerivesAccumulate(s: WalletState, first: map<string, string>, second: map<string, string>)
    ensures var t := WithDerived(WithDerived(s, first), second);
            (forall c :: c in second ==> t.addresses[c] == second[c]) &&
            (forall c :: c in first && c !in second ==> t.addresses[c] == first[c]) &&
            (forall c :: c in s.addresses && c !in first && c !in second ==> t.addresses[c] == s.addresses[c])
  {
  }

  /**
   * The route's derivation merged into the session: requested ETH and OM end up with the
   * same address, and results for other chains from earlier derives are kept.
   */
  lemma DeriveMergesRouteResult(p: Provider, s: WalletState, m: MnemonicArg, chains: seq<string>)
    requires "OM" in chains && "ETH" in chains
    requires forall c :: c in chains ==> !WalletRoute.DerivationThrows(p, m, c)
    ensures var t := WithDerived(s, WalletRoute.Derivation(p, m, chains).value);
            "OM" in t.addresses && "ETH" in t.addresses && t.addresses["OM"] == t.addresses["ETH"] &&
            (forall c :: c in s.addresses && c !in chains ==> t.addresses[c] == s.addresses[c])
  {
  }

  /**
   * Without the guard, a derive into a state with no mnemonic fills the address book:
   * addresses can be non-empty while no mnemonic is held.
   */
  lemma DeriveWithoutSessionFillsAddresses(result: map<string, string>)
    requires result != map[]
    ensures var t := WithDerived(InitialState, result);
            t.mnemonic.None? && !SessionLoaded(t) && t.addresses == result && t.addresses != map[]
  {
  }

  /** Selecting a chain the registry does not know is accepted as is. */
  lemma SelectAcceptsUnregisteredChain(s: WalletState)
    ensures WithSelectedChain(s, "XYZ").selectedChain == "XYZ" && "XYZ" !in ChainCodes
  {
  }

  /** A wallet is loaded exactly when its mnemonic is a non-empty string. */
  lemma LoadedIffNonEmptyMnemonic(s: WalletState, m: string)
    ensures SessionLoaded(WithMnemonic(s, m)) <==> m != ""
    ensures SessionLoaded(s) <==> s.mnemonic.Some? && |s.mnemonic.value| > 0
  {
  }
}
