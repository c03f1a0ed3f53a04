/** The client session that `TokenProvider` keeps: the actor calls go through
    (`actor`), the principal shown in the page (`me`) and the cached ledger facts
    (`meta`, `creator`, `supply`), with the operations that change them.

    The remote canister is the `Ledger.TokenLedger` object; an actor is bound
    to it and signs with one principal.  Whether the network delivers a call is
    not decided here: every operation takes `net`, the set of remote calls
    whose transport fails while it runs.  `isPrincipalText` stands for
    `Principal.fromText` accepting a text; the principal it yields is compared
    by that text. */
module Session {
  import opened Common
  import L = Ledger
  import A = Amount
  import E = Environment

  /** The remote calls the client issues. */
  datatype Call = RootKey | MetadataQuery | CreatorQuery | SupplyQuery | BalanceQuery | TransferUpdate | MintUpdate

  /** The three queries `refreshChain` sends together. */
  const ChainQueries: seq<Call> := [MetadataQuery, CreatorQuery, SupplyQuery]

  /** What a remote call gives back: the canister's reply, or a failure of the
      transport (the agent rejects the call's promise). */
  datatype Reply<T> = Delivered(value: T) | Faulted

  /** What an operation throws. */
  datatype Failure =
    | LocalError(message: string)
    | InvalidPrincipal(text: string)
    | LoginFailed
    | TransportFault(call: Call)

  const ActorNotReady: Failure := LocalError("Actor not ready")
  const InvalidAmount: Failure := LocalError("Amount must be a whole number (nat).")
  const EmptyPrincipal: Failure := LocalError("Principal cannot be empty")

  /** An async operation settles by returning a value or by throwing. */
  datatype Outcome<T> = Returned(value: T) | Threw(error: Failure)

  /** The object `transfer` and `mint` resolve to: `{ ok: true }` or `{ ok: false, err }`. */
  datatype Report = Report(ok: bool, err: Option<string>)

  /** The text `me` starts with before any login. */
  const DefaultMe: L.Principal := "hil7f-stbsb-xxofu-iuqoh-g4kg6-qntar-n3zz5-ldbk2-nwf37-e5exb-hae"

  /** The ledger's `Ok`/`Err` result as the client reports it. */
  function ToReport(res: L.TxResult): (r: Report)
    ensures r.ok <==> res.Ok?
    ensures r.ok ==> r.err == None
    ensures res.Err? ==> r.err == Some(res.reason)
  {
    match res
    case Ok => Report(true, None)
    case Err(e) => Report(false, Some(e))
  }

  /** No two ledger results are reported alike. */
  lemma ToReportInjective(x: L.TxResult, y: L.TxResult)
    requires ToReport(x) == ToReport(y)
    ensures x == y
  {
  }

  /** The local checks `transfer` and `mint` make before any call, in their
      order: an actor, then the recipient's principal text, then the amount. */
  function Validate(ready: bool, isPrincipalText: string -> bool, to: string, amount: A.Input): (r: Outcome<nat>)
    ensures !ready ==> r == Threw(ActorNotReady)
    ensures ready && !isPrincipalText(to) ==> r == Threw(InvalidPrincipal(to))
    ensures ready && isPrincipalText(to) && A.ToNat(amount).None? ==> r == Threw(InvalidAmount)
    ensures r.Returned? <==> ready && isPrincipalText(to) && A.ToNat(amount).Some?
    ensures r.Returned? ==> Some(r.value) == A.ToNat(amount)
  {
    if !ready then Threw(ActorNotReady)
    else if !isPrincipalText(to) then Threw(InvalidPrincipal(to))
    else match A.ToNat(amount)
      case None => Threw(InvalidAmount)
      case Some(n) => Returned(n)
  }

  /** An actor created by `createTokenActor`: an agent bound to the token
      canister.  `sent` records every call issued through it. */
  class LedgerActor {
    const agent: E.Agent
    const ledger: L.TokenLedger
    ghost var sent: seq<Call>

    /** Calls may be issued: the agent's root-key bootstrap, if it needs one, is done. */
    ghost predicate Valid() {
      E.Ready(agent)
    }

    /** The principal the canister sees as `caller()` for calls through this actor. */
    function Caller(): L.Principal {
      agent.principal
    }

    constructor (agent: E.Agent, ledger: L.TokenLedger)
      requires E.Ready(agent)
      ensures Valid()
      ensures this.agent == agent && this.ledger == ledger && sent == []
    {
      this.agent := agent;
      this.ledger := ledger;
      sent := [];
    }

    method GetMetadata(net: set<Call>) returns (r: Reply<L.Metadata>)
      requires Valid()
      modifies this`sent
      ensures sent == old(sent) + [MetadataQuery]
      ensures r == if MetadataQuery in net then Faulted else Delivered(ledger.metadata)
    {
      sent := sent + [MetadataQuery];
      if MetadataQuery in net {
        r := Faulted;
      } else {
        var m := ledger.GetMetadata();
        r := Delivered(m);
      }
    }

    /** `get_creator`; the principal arrives as its text (`c.toText()`). */
    method GetCreator(net: set<Call>) returns (r: Reply<L.Principal>)
      requires Valid()
      modifies this`sent
      ensures sent == old(sent) + [CreatorQuery]
      ensures r == if CreatorQuery in net then Faulted else Delivered(ledger.creator)
    {
      sent := sent + [CreatorQuery];
      if CreatorQuery in net {
        r := Faulted;
      } else {
        var c := ledger.GetCreator();
        r := Delivered(c);
      }
    }

    /** `total_supply`; the u128 arrives as an unbounded natural (`BigInt(ts)`). */
    method TotalSupply(net: set<Call>) returns (r: Reply<nat>)
      requires Valid()
      modifies this`sent
      ensures sent == old(sent) + [SupplyQuery]
      ensures r == if SupplyQuery in net then Faulted else Delivered(ledger.totalSupply)
    {
      sent := sent + [SupplyQuery];
      if SupplyQuery in net {
        r := Faulted;
      } else {
        var n := ledger.TotalSupply();
        r := Delivered(n);
      }
    }

    method BalanceOf(owner: L.Principal, net: set<Call>) returns (r: Reply<nat>)
      requires Valid()
      modifies this`sent
      ensures sent == old(sent) + [BalanceQuery]
      ensures r == if BalanceQuery in net then Faulted else Delivered(L.Bal(ledger.balances, owner))
    {
      sent := sent + [BalanceQuery];
      if BalanceQuery in net {
        r := Faulted;
      } else {
        var n := ledger.BalanceOf(owner);
        r := Delivered(n);
      }
    }

    /** `transfer` signed by this actor's principal.  An amount beyond u128
        cannot be decoded by the canister, so the call is rejected. */
    method Transfer(to: L.Principal, amount: nat, net: set<Call>) returns (r: Reply<L.TxResult>)
      requires Valid()
      requires L.TransferFits(ledger.balances, Caller(), to, amount)
      modifies this`sent, ledger
      ensures sent == old(sent) + [TransferUpdate]
      ensures TransferUpdate in net || amount > L.U128Max ==>
        r == Faulted && ledger.State() == old(ledger.State())
      ensures TransferUpdate !in net && amount <= L.U128Max ==>
        var s := L.TransferStep(old(ledger.State()), Caller(), to, amount);
        r == Delivered(s.result) && ledger.State() == s.state
    {
      sent := sent + [TransferUpdate];
      if TransferUpdate in net || amount > L.U128Max {
        r := Faulted;
      } else {
        var res := ledger.Transfer(Caller(), to, amount);
        r := Delivered(res);
      }
    }

    /** `mint` signed by this actor's principal. */
    method Mint(to: L.Principal, amount: nat, net: set<Call>) returns (r: Reply<L.TxResult>)
      requires Valid()
      requires L.MintFits(ledger.balances, ledger.creator, Caller(), to, amount)
      modifies this`sent, ledger
      ensures sent == old(sent) + [MintUpdate]
      ensures MintUpdate in net || amount > L.U128Max ==>
        r == Faulted && ledger.State() == old(ledger.State())
      ensures MintUpdate !in net && amount <= L.U128Max ==>
        var s := L.MintStep(old(ledger.State()), Caller(), to, amount);
        r == Delivered(s.result) && ledger.State() == s.state
    {
      sent := sent + [MintUpdate];
      if MintUpdate in net || amount > L.U128Max {
        r := Faulted;
      } else {
        var res := ledger.Mint(Caller(), to, amount);
        r := Delivered(res);
      }
    }
  }

  /** The state `TokenProvider` keeps and the operations it offers. */
  class TokenSession {
    const canister: L.TokenLedger
    const location: E.Location
    const isPrincipalText: string -> bool
    /** Always true: the token is taken to be initialised. */
    const initialized: bool

    var actor: LedgerActor?
    var me: string
    var meta: L.Metadata
    var creator: string
    var supply: nat

    /** Every actor the session holds talks to this session's canister and may issue calls. */
    ghost predicate Valid()
      reads this
    {
      actor != null ==> actor.ledger == canister && actor.Valid()
    }

    /** The provider's initial state: no actor yet, and the default cache. */
    constructor (canister: L.TokenLedger, location: E.Location, isPrincipalText: string -> bool)
      ensures Valid()
      ensures this.canister == canister && this.location == location && this.isPrincipalText == isPrincipalText
      ensures initialized
      ensures actor == null && me == DefaultMe
      ensures meta == L.DefaultMetadata && creator == "" && supply == 0
    {
      this.canister := canister;
      this.location := location;
      this.isPrincipalText := isPrincipalText;
      initialized := true;
      actor := null;
      me := DefaultMe;
      meta := L.DefaultMetadata;
      creator := "";
      supply := 0;
    }

    /** The mount effect: build an anonymous actor.  A failure is only logged. */
    method BuildAnonymousActor(net: set<Call>)
      requires Valid()
      modifies this`actor
      ensures Valid()
      ensures var ag := E.MakeAgent(None, location, RootKey !in net);
              (ag.None? ==> actor == old(actor)) &&
              (ag.Some? ==> fresh(actor) && actor.agent == ag.value && actor.Caller() == L.Anonymous && actor.sent == [])
    {
      var ag := E.MakeAgent(None, location, RootKey !in net);
      if ag.Some? {
        actor := new LedgerActor(ag.value, canister);
      }
    }

    /** The body of `refreshChain` run against the actor `a`: the three queries
        are all sent, and the cache is written only once all three have answered. */
    method FetchChain(a: LedgerActor?, net: set<Call>) returns (r: Outcome<()>)
      requires a != null ==> a.ledger == canister && a.Valid()
      modifies this`meta, this`creator, this`supply, a
      ensures a == null ==> r == Returned(()) && meta == old(meta) && creator == old(creator) && supply == old(supply)
      ensures a != null ==> a.sent == old(a.sent) + ChainQueries
      ensures a != null ==> (r.Returned? <==> MetadataQuery !in net && CreatorQuery !in net && SupplyQuery !in net)
      ensures a != null && r.Returned? ==>
        meta == canister.metadata && creator == canister.creator && supply == canister.totalSupply
      ensures r.Threw? ==> meta == old(meta) && creator == old(creator) && supply == old(supply)
      ensures r.Threw? ==> r.error.TransportFault? && r.error.call in net && r.error.call in ChainQueries
    {
      if a == null {
        return Returned(());
      }
      var m := a.GetMetadata(net);
      var c := a.GetCreator(net);
      var ts := a.TotalSupply(net);
      if m.Faulted? {
        return Threw(TransportFault(MetadataQuery));
      }
      if c.Faulted? {
        return Threw(TransportFault(CreatorQuery));
      }
      if ts.Faulted? {
        return Threw(TransportFault(SupplyQuery));
      }
      meta := m.value;
      creator := c.value;
      supply := ts.value;
      return Returned(());
    }

    /** `refreshChain`: a no-op without an actor; otherwise metadata, creator
        and supply are replaced together or not at all. */
    method RefreshChain(net: set<Call>) returns (r: Outcome<()>)
      requires Valid()
      modifies this`meta, this`creator, this`supply, actor
      ensures Valid()
      ensures actor == null ==> r == Returned(()) && meta == old(meta) && creator == old(creator) && supply == old(supply)
      ensures actor != null ==> actor.sent == old(actor.sent) + ChainQueries
      ensures actor != null ==> (r.Returned? <==> MetadataQuery !in net && CreatorQuery !in net && SupplyQuery !in net)
      ensures actor != null && r.Returned? ==>
        meta == canister.metadata && creator == canister.creator && supply == canister.totalSupply
      ensures r.Threw? ==> meta == old(meta) && creator == old(creator) && supply == old(supply)
      ensures r.Threw? ==> r.error.TransportFault? && r.error.call in net && r.error.call in ChainQueries
    {
      r := FetchChain(actor, net);
    }

    /** `refreshSupply`: a no-op without an actor; otherwise the supply is
        replaced by the canister's, unless the query fails. */
    method RefreshSupply(net: set<Call>) returns (r: Outcome<()>)
      requires Valid()
      modifies this`supply, actor
      ensures Valid()
      ensures actor == null ==> r == Returned(()) && supply == old(supply)
      ensures actor != null ==> actor.sent == old(actor.sent) + [SupplyQuery]
      ensures actor != null ==>
        r == if SupplyQuery in net then Threw(TransportFault(SupplyQuery)) else Returned(())
      ensures actor != null && r.Returned? ==> supply == canister.totalSupply
      ensures r.Threw? ==> supply == old(supply)
    {
      if actor == null {
        return Returned(());
      }
      var ts := actor.TotalSupply(net);
      if ts.Faulted? {
        return Threw(TransportFault(SupplyQuery));
      }
      supply := ts.value;
      return Returned(());
    }

    /** `getBalance(pText)`: 0 without an actor or for an empty text; otherwise
        the canister's balance for that principal.  Writes no session state. */
    method GetBalance(pText: A.Input, net: set<Call>) returns (r: Outcome<nat>)
      requires Valid()
      modifies actor
      ensures Valid()
      ensures actor == null || A.OrEmpty(pText) == "" ==> r == Returned(0)
      ensures actor != null && A.OrEmpty(pText) != "" && !isPrincipalText(A.OrEmpty(pText)) ==>
        r == Threw(InvalidPrincipal(A.OrEmpty(pText))) && actor.sent == old(actor.sent)
      ensures actor != null && A.OrEmpty(pText) == "" ==> actor.sent == old(actor.sent)
      ensures actor != null && A.OrEmpty(pText) != "" && isPrincipalText(A.OrEmpty(pText)) ==>
        actor.sent == old(actor.sent) + [BalanceQuery] &&
        r == if BalanceQuery in net then Threw(TransportFault(BalanceQuery))
             else Returned(L.Bal(canister.balances, A.OrEmpty(pText)))
    {
      var t := A.OrEmpty(pText);
      if actor == null || t == "" {
        return Returned(0);
      }
      if !isPrincipalText(t) {
        return Threw(InvalidPrincipal(t));
      }
      var n := actor.BalanceOf(t, net);
      if n.Faulted? {
        return Threw(TransportFault(BalanceQuery));
      }
      return Returned(n.value);
    }

    /** What `transfer` and `mint` do with the ledger's answer: an `Err` is
        reported as it is; an `Ok` refreshes the supply and, if that query
        succeeds, is reported as success. */
    method Settle(res: L.TxResult, net: set<Call>) returns (r: Outcome<Report>)
      requires Valid() && actor != null
      modifies this`supply, actor
      ensures Valid()
      ensures res.Err? ==>
        r == Returned(ToReport(res)) && supply == old(supply) && actor.sent == old(actor.sent)
      ensures res.Ok? ==>
        actor.sent == old(actor.sent) + [SupplyQuery] &&
        if SupplyQuery in net then r == Threw(TransportFault(SupplyQuery)) && supply == old(supply)
        else r == Returned(ToReport(res)) && supply == canister.totalSupply
    {
      if res.Err? {
        return Returned(ToReport(res));
      }
      var refreshed := RefreshSupply(net);
      if refreshed.Threw? {
        return Threw(refreshed.error);
      }
      return Returned(ToReport(res));
    }

    /** `transfer(to, amount)`: the local checks first, then the update call
        signed by the actor's principal; a ledger `Err` is reported without a
        refresh, an `Ok` refreshes the supply before reporting success. */
    method Transfer(to: string, amount: A.Input, net: set<Call>) returns (r: Outcome<Report>)
      requires Valid()
      requires actor != null && isPrincipalText(to) && A.ToNat(amount).Some? ==>
        L.TransferFits(canister.balances, actor.Caller(), to, A.ToNat(amount).value)
      modifies this`supply, actor, canister
      ensures Valid()
      // a failed local check reaches no remote call
      ensures var v := Validate(actor != null, isPrincipalText, to, amount);
        if v.Threw? then
          r == Threw(v.error) && supply == old(supply) && canister.State() == old(canister.State()) &&
          (actor != null ==> actor.sent == old(actor.sent))
        else
          if v.value > L.U128Max || TransferUpdate in net then
            r == Threw(TransportFault(TransferUpdate)) && supply == old(supply) &&
            canister.State() == old(canister.State()) && actor.sent == old(actor.sent) + [TransferUpdate]
          else
            var s := L.TransferStep(old(canister.State()), actor.Caller(), to, v.value);
            canister.State() == s.state &&
            if s.result.Err? then
              r == Returned(ToReport(s.result)) && supply == old(supply) &&
              actor.sent == old(actor.sent) + [TransferUpdate]
            else
              actor.sent == old(actor.sent) + [TransferUpdate, SupplyQuery] &&
              if SupplyQuery in net then r == Threw(TransportFault(SupplyQuery)) && supply == old(supply)
              else r == Returned(ToReport(s.result)) && supply == canister.totalSupply
      // the supply moves only after a reported success
      ensures r.Threw? || !r.value.ok ==> supply == old(supply)
    {
      var v := Validate(actor != null, isPrincipalText, to, amount);
      if v.Threw? {
        return Threw(v.error);
      }
      var res := actor.Transfer(to, v.value, net);
      if res.Faulted? {
        return Threw(TransportFault(TransferUpdate));
      }
      ghost var st := L.TransferStep(old(canister.State()), actor.Caller(), to, v.value);
      assert res.value == st.result && canister.State() == st.state;
      r := Settle(res.value, net);
    }

    /** `mint(to, amount)`: the same shape as `transfer`; only the canister
        decides whether the caller may mint. */
    method Mint(to: string, amount: A.Input, net: set<Call>) returns (r: Outcome<Report>)
      requires Valid()
      requires actor != null && isPrincipalText(to) && A.ToNat(amount).Some? ==>
        L.MintFits(canister.balances, canister.creator, actor.Caller(), to, A.ToNat(amount).value)
      modifies this`supply, actor, canister
      ensures Valid()
      ensures var v := Validate(actor != null, isPrincipalText, to, amount);
        if v.Threw? then
          r == Threw(v.error) && supply == old(supply) && canister.State() == old(canister.State()) &&
          (actor != null ==> actor.sent == old(actor.sent))
        else
          if v.value > L.U128Max || MintUpdate in net then
            r == Threw(TransportFault(MintUpdate)) && supply == old(supply) &&
            canister.State() == old(canister.State()) && actor.sent == old(actor.sent) + [MintUpdate]
          else
            var s := L.MintStep(old(canister.State()), actor.Caller(), to, v.value);
            canister.State() == s.state &&
            if s.result.Err? then
              r == Returned(ToReport(s.result)) && supply == old(supply) &&
              actor.sent == old(actor.sent) + [MintUpdate]
            else
              actor.sent == old(actor.sent) + [MintUpdate, SupplyQuery] &&
              if SupplyQuery in net then r == Threw(TransportFault(SupplyQuery)) && supply == old(supply)
              else r == Returned(ToReport(s.result)) && supply == canister.totalSupply
      ensures r.Threw? || !r.value.ok ==> supply == old(supply)
    {
      var v := Validate(actor != null, isPrincipalText, to, amount);
      if v.Threw? {
        return Threw(v.error);
      }
      var res := actor.Mint(to, v.value, net);
      if res.Faulted? {
        return Threw(TransportFault(MintUpdate));
      }
      ghost var st := L.MintStep(old(canister.State()), actor.Caller(), to, v.value);
      assert res.value == st.result && canister.State() == st.state;
      r := Settle(res.value, net);
    }

    /** `loginWithPrincipal(text)`: view as another principal.  Only `me`
        changes; the actor, and so the signing principal, stays.  The balance
        warm-up's errors are swallowed. */
    method LoginWithPrincipal(text: A.Input, net: set<Call>) returns (r: Outcome<()>)
      requires Valid()
      modifies this`me, actor
      ensures Valid()
      ensures var t := A.Trim(A.OrEmpty(text));
        if t == [] then
          r == Threw(EmptyPrincipal) && me == old(me) && (actor != null ==> actor.sent == old(actor.sent))
        else
          r == Returned(()) && me == t &&
          (actor != null ==> actor.sent == old(actor.sent) + (if isPrincipalText(t) then [BalanceQuery] else []))
    {
      var t := A.Trim(A.OrEmpty(text));
      if t == [] {
        return Threw(EmptyPrincipal);
      }
      me := t;
      assert A.OrEmpty(A.Text(t)) == t;
      var _ := GetBalance(A.Text(t), net);
      return Returned(());
    }

    /** `loginWithII`: `identity` is the principal the auth client yields, or
        `None` when its login flow reports an error.  On success a fresh actor
        signed by that identity replaces the old one and `me` becomes its
        principal.  The refresh that follows runs through the actor the
        function closed over, i.e. the previous one, and its errors are
        swallowed. */
    method LoginWithII(identity: Option<L.Principal>, net: set<Call>) returns (r: Outcome<()>)
      requires Valid()
      modifies this, actor
      ensures Valid()
      ensures identity.None? ==>
        r == Threw(LoginFailed) && unchanged(this) &&
        (old(actor) != null ==> old(actor).sent == old(actor.sent))
      ensures identity.Some? && E.MakeAgent(identity, location, RootKey !in net).None? ==>
        r == Threw(TransportFault(RootKey)) && unchanged(this) &&
        (old(actor) != null ==> old(actor).sent == old(actor.sent))
      ensures var ag := E.MakeAgent(identity, location, RootKey !in net);
        identity.Some? && ag.Some? ==>
          r == Returned(()) && fresh(actor) && actor.agent == ag.value && actor.sent == [] &&
          actor.Caller() == identity.value && me == identity.value
      ensures var ag := E.MakeAgent(identity, location, RootKey !in net);
        identity.Some? && ag.Some? && old(actor) == null ==>
          meta == old(meta) && creator == old(creator) && supply == old(supply)
      ensures var ag := E.MakeAgent(identity, location, RootKey !in net);
        identity.Some? && ag.Some? && old(actor) != null ==>
          old(actor).sent == old(actor.sent) + ChainQueries &&
          if MetadataQuery !in net && CreatorQuery !in net && SupplyQuery !in net then
            meta == canister.metadata && creator == canister.creator && supply == canister.totalSupply
          else
            meta == old(meta) && creator == old(creator) && supply == old(supply)
    {
      if identity.None? {
        return Threw(LoginFailed);
      }
      var ag := E.MakeAgent(identity, location, RootKey !in net);
      if ag.None? {
        return Threw(TransportFault(RootKey));
      }
      var previous := actor;
      actor := new LedgerActor(ag.value, canister);
      me := identity.value;
      var _ := FetchChain(previous, net);
      return Returned(());
    }

    /** `logout`: a freshly built anonymous actor replaces the current one and
        `me` becomes the anonymous principal; the cache is kept. */
    method Logout(net: set<Call>) returns (r: Outcome<()>)
      requires Valid()
      modifies this`actor, this`me
      ensures Valid()
      ensures var ag := E.MakeAgent(None, location, RootKey !in net);
        ag.None? ==> r == Threw(TransportFault(RootKey)) && actor == old(actor) && me == old(me)
      ensures var ag := E.MakeAgent(None, location, RootKey !in net);
        ag.Some? ==>
          r == Returned(()) && fresh(actor) && actor.agent == ag.value && actor.sent == [] &&
          actor.Caller() == L.Anonymous && me == L.Anonymous
    {
      var ag := E.MakeAgent(None, location, RootKey !in net);
      if ag.None? {
        return Threw(TransportFault(RootKey));
      }
      actor := new LedgerActor(ag.value, canister);
      me := L.Anonymous;
      return Returned(());
    }
  }
}
