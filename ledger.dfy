/** The token canister: one state record (metadata, a u128 total supply, a
    principal-to-u128 balance map and a creator), an `init` step, read-only
    queries and the two update calls `transfer` and `mint`.

    The state transitions are first given as pure functions over a
    `LedgerState` value (`InitStep`, `TransferStep`, `MintStep`); the class
    `TokenLedger` holds the state in mutable fields and its methods update them
    step by step, each proved to agree with its step function.  The caller
    principal that the canister reads from its runtime is an explicit
    parameter. */
module Ledger {

  /** Principals are compared by their text. */
  type Principal = string

  /** Text of `Principal::anonymous()`. */
  const Anonymous: Principal := "2vxsx-fae"

  const U128Max: int := 0xFFFF_FFFF_FFFF_FFFF_FFFF_FFFF_FFFF_FFFF
  type u128 = x: int | 0 <= x <= U128Max
  type u8 = x: int | 0 <= x < 256

  datatype Metadata = Metadata(name: string, symbol: string, decimals: u8)

  /** A snapshot of the canister's `State` record. */
  datatype LedgerState = LedgerState(
    metadata: Metadata,
    totalSupply: u128,
    balances: map<Principal, u128>,
    creator: Principal)

  /** `Result<(), String>` as returned by the update calls. */
  datatype TxResult = Ok | Err(reason: string)

  /** The state after an update call, and what the call returned. */
  datatype Step = Step(state: LedgerState, result: TxResult)

  const InsufficientBalance: string := "Insufficient balance"
  const OnlyCreator: string := "Only the creator can mint tokens"

  const DefaultMetadata: Metadata := Metadata("Hero", "HERO", 8)
  const DefaultSupply: u128 := 100_000_000_000_000

  /** `State::default()`: before `init` no account holds anything and the
      creator is the anonymous principal. */
  const DefaultState: LedgerState := LedgerState(DefaultMetadata, DefaultSupply, map[], Anonymous)

  /** A balance as the canister reads it: the stored entry, or 0 when there is none. */
  function Bal(b: map<Principal, u128>, p: Principal): u128 {
    if p in b then b[p] else 0
  }

  /** `u128::saturating_add`. */
  function SaturatingAdd(x: u128, y: u128): (r: u128)
    ensures r <= x + y
    ensures r == x + y || r == U128Max
    ensures x + y <= U128Max ==> r == x + y
  {
    if x + y <= U128Max then x + y else U128Max
  }

  /** The unchecked addition `to_bal + amount` of `transfer` stays within u128
      (it is reached only for a positive amount the caller can cover, paid to
      someone else; a self-transfer adds back what was just taken). */
  predicate TransferFits(b: map<Principal, u128>, from: Principal, to: Principal, amount: nat) {
    amount == 0 || amount > U128Max || Bal(b, from) < amount || from == to || Bal(b, to) + amount <= U128Max
  }

  /** The unchecked addition `to_bal + amount` of `mint` stays within u128
      (it is reached only for a positive amount minted by the creator). */
  predicate MintFits(b: map<Principal, u128>, creator: Principal, caller: Principal, to: Principal, amount: nat) {
    amount == 0 || amount > U128Max || caller != creator || Bal(b, to) + amount <= U128Max
  }

  /** `init`: the deployer becomes the creator and is given the current total supply. */
  function InitStep(st: LedgerState, deployer: Principal): (r: LedgerState)
    ensures r.creator == deployer
    ensures Bal(r.balances, deployer) == st.totalSupply
    ensures forall p :: p != deployer ==> Bal(r.balances, p) == Bal(st.balances, p)
    ensures r.metadata == st.metadata && r.totalSupply == st.totalSupply
  {
    st.(creator := deployer, balances := st.balances[deployer := st.totalSupply])
  }

  /** `transfer(to, amount)` called by `caller`. */
  function TransferStep(st: LedgerState, caller: Principal, to: Principal, amount: u128): (s: Step)
    requires TransferFits(st.balances, caller, to, amount)
    // a zero amount succeeds at once; otherwise success exactly when the caller can cover it
    ensures amount == 0 ==> s == Step(st, Ok)
    ensures s.result.Ok? <==> amount <= Bal(st.balances, caller)
    ensures s.result.Err? ==> s.result.reason == InsufficientBalance && s.state == st
    // only balances move
    ensures s.state.metadata == st.metadata && s.state.totalSupply == st.totalSupply
    ensures s.state.creator == st.creator
    ensures s.result.Ok? && caller != to ==>
      Bal(s.state.balances, caller) == Bal(st.balances, caller) - amount &&
      Bal(s.state.balances, to) == Bal(st.balances, to) + amount
    ensures forall p :: p != caller && p != to ==> Bal(s.state.balances, p) == Bal(st.balances, p)
    // the second read sees the reduced balance, so paying oneself changes nothing
    ensures caller == to ==> s.state == st
  {
    if amount == 0 then Step(st, Ok)
    else
      var fromBal := Bal(st.balances, caller);
      if fromBal < amount then Step(st, Err(InsufficientBalance))
      else
        var debited := st.balances[caller := fromBal - amount];
        var toBal := Bal(debited, to);
        assert caller == to ==> debited[to := toBal + amount] == st.balances;
        Step(st.(balances := debited[to := toBal + amount]), Ok)
  }

  /** `mint(to, amount)` called by `caller`. */
  function MintStep(st: LedgerState, caller: Principal, to: Principal, amount: u128): (s: Step)
    requires MintFits(st.balances, st.creator, caller, to, amount)
    // the zero test comes before the creator test
    ensures amount == 0 ==> s == Step(st, Ok)
    ensures s.result.Ok? <==> amount == 0 || caller == st.creator
    ensures s.result.Err? ==> s.result.reason == OnlyCreator && s.state == st
    ensures s.state.metadata == st.metadata && s.state.creator == st.creator
    ensures s.result.Ok? && amount > 0 ==>
      Bal(s.state.balances, to) == Bal(st.balances, to) + amount &&
      s.state.totalSupply == SaturatingAdd(st.totalSupply, amount)
  {
    if amount == 0 then Step(st, Ok)
    else if caller != st.creator then Step(st, Err(OnlyCreator))
    else
      var toBal := Bal(st.balances, to);
      Step(st.(balances := st.balances[to := toBal + amount],
               totalSupply := SaturatingAdd(st.totalSupply, amount)), Ok)
  }

  /** `mint` credits the recipient and no other account. */
  lemma MintOnlyCreditsRecipient(st: LedgerState, caller: Principal, to: Principal, amount: u128)
    requires MintFits(st.balances, st.creator, caller, to, amount)
    ensures forall p :: p != to ==> Bal(MintStep(st, caller, to, amount).state.balances, p) == Bal(st.balances, p)
  {
  }

  /* -------------------- Sum of balances -------------------- */

  ghost function Pick(s: set<Principal>): (p: Principal)
    requires s != {}
    ensures p in s
  {
    var p :| p in s; p
  }

  /** The sum of all stored balances. */
  ghost function Sum(b: map<Principal, u128>): nat
    decreases |b|
  {
    if b == map[] then 0
    else
      var p := Pick(b.Keys);
      assert |b - {p}| < |b| by { assert (b - {p}).Keys == b.Keys - {p}; }
      b[p] + Sum(b - {p})
  }

  /** Every stored balance is counted exactly once, whichever key is taken out first. */
  lemma {:induction false} SumRemove(b: map<Principal, u128>, p: Principal)
    requires p in b
    ensures Sum(b) == b[p] + Sum(b - {p})
    decreases |b|
  {
    var q := Pick(b.Keys);
    assert (b - {q}).Keys == b.Keys - {q};
    if q != p {
      SumRemove(b - {q}, p);
      assert (b - {p}).Keys == b.Keys - {p};
      SumRemove(b - {p}, q);
      assert b - {q} - {p} == b - {p} - {q};
    }
  }

  /** Overwriting one entry changes the sum by the difference. */
  lemma SumUpdate(b: map<Principal, u128>, p: Principal, v: u128)
    ensures Sum(b[p := v]) == Sum(b) - Bal(b, p) + v
  {
    SumRemove(b[p := v], p);
    if p in b {
      SumRemove(b, p);
      assert b[p := v] - {p} == b - {p};
    } else {
      assert b[p := v] - {p} == b;
    }
  }

  /** Two different accounts together never hold more than the sum. */
  lemma PairBound(b: map<Principal, u128>, p: Principal, q: Principal)
    requires p != q
    ensures Bal(b, p) + Bal(b, q) <= Sum(b)
  {
    if p in b {
      SumRemove(b, p);
      if q in b {
        SumRemove(b - {p}, q);
      }
    } else if q in b {
      SumRemove(b, q);
    }
  }

  /** The conservation invariant: the balances add up to the total supply. */
  ghost predicate Conserved(st: LedgerState) {
    Sum(st.balances) == st.totalSupply
  }

  /** Deploying on the default state hands the whole supply to the deployer,
      so the balances add up to the total supply. */
  lemma InitConserves(deployer: Principal)
    ensures Conserved(InitStep(DefaultState, deployer))
  {
    SumUpdate(map[], deployer, DefaultSupply);
  }

  /** While the balances add up to the total supply, no transfer can overflow
      the recipient's balance. */
  lemma ConservedTransferFits(st: LedgerState, from: Principal, to: Principal, amount: nat)
    requires Conserved(st)
    ensures TransferFits(st.balances, from, to, amount)
  {
    if from != to { PairBound(st.balances, from, to); }
  }

  /** Every transfer keeps the sum of all balances. */
  lemma TransferConserves(st: LedgerState, caller: Principal, to: Principal, amount: u128)
    requires TransferFits(st.balances, caller, to, amount)
    ensures Sum(TransferStep(st, caller, to, amount).state.balances) == Sum(st.balances)
  {
    var b := st.balances;
    if amount > 0 && Bal(b, caller) >= amount {
      var debited := b[caller := Bal(b, caller) - amount];
      SumUpdate(b, caller, Bal(b, caller) - amount);
      SumUpdate(debited, to, Bal(debited, to) + amount);
    }
  }

  /** Hence transfers preserve the conservation invariant. */
  lemma TransferKeepsConserved(st: LedgerState, caller: Principal, to: Principal, amount: u128)
    requires Conserved(st)
    ensures TransferFits(st.balances, caller, to, amount)
    ensures Conserved(TransferStep(st, caller, to, amount).state)
  {
    ConservedTransferFits(st, caller, to, amount);
    TransferConserves(st, caller, to, amount);
  }

  /** A mint that does not reach the u128 ceiling keeps the conservation invariant. */
  lemma MintConserves(st: LedgerState, caller: Principal, to: Principal, amount: u128)
    requires MintFits(st.balances, st.creator, caller, to, amount)
    requires Conserved(st)
    requires st.totalSupply + amount <= U128Max
    ensures Conserved(MintStep(st, caller, to, amount).state)
  {
    if amount > 0 && caller == st.creator {
      SumUpdate(st.balances, to, Bal(st.balances, to) + amount);
    }
  }

  /** At the ceiling the supply saturates while the recipient is still credited
      the whole amount: starting from a conserved state where one account holds
      the largest u128 supply, minting 1 to another account leaves the balances
      summing to one more than the total supply.  From there, paying that 1
      back to the creator reaches the unchecked `to_bal + amount` with a sum
      beyond u128. */
  lemma MintSaturationBreaksConservation()
    ensures var st := LedgerState(DefaultMetadata, U128Max, map["creator" := U128Max], "creator");
            Conserved(st) &&
            MintFits(st.balances, st.creator, "creator", "holder", 1) &&
            var s := MintStep(st, "creator", "holder", 1);
            s.result == Ok && s.state.totalSupply == U128Max &&
            Sum(s.state.balances) == s.state.totalSupply + 1 &&
            !TransferFits(s.state.balances, "holder", "creator", 1)
  {
    var b: map<Principal, u128> := map["creator" := U128Max];
    SumUpdate(map[], "creator", U128Max);
    assert map[]["creator" := U128Max] == b;
    SumUpdate(b, "holder", 1);
  }

  /* -------------------- The canister as an object -------------------- */

  class TokenLedger {
    var metadata: Metadata
    var totalSupply: u128
    var balances: map<Principal, u128>
    var creator: Principal

    /** The state record these fields make up. */
    function State(): LedgerState
      reads this
    {
      LedgerState(metadata, totalSupply, balances, creator)
    }

    /** The `thread_local!` state as `State::default()` builds it. */
    constructor ()
      ensures State() == DefaultState
    {
      metadata := DefaultMetadata;
      totalSupply := DefaultSupply;
      balances := map[];
      creator := Anonymous;
    }

    /** `init`, run once when the canister is installed by `deployer`. */
    method Init(deployer: Principal)
      modifies this
      ensures State() == InitStep(old(State()), deployer)
    {
      var total := totalSupply;
      creator := deployer;
      balances := balances[deployer := total];
    }

    /** `get_metadata`. */
    method GetMetadata() returns (m: Metadata)
      ensures m == metadata
    {
      m := metadata;
    }

    /** `total_supply`. */
    method TotalSupply() returns (n: u128)
      ensures n == totalSupply
    {
      n := totalSupply;
    }

    /** `balance_of`: the stored balance, or 0 for a principal without an entry. */
    method BalanceOf(owner: Principal) returns (n: u128)
      ensures owner in balances ==> n == balances[owner]
      ensures owner !in balances ==> n == 0
    {
      n := if owner in balances then balances[owner] else 0;
    }

    /** `get_creator`. */
    method GetCreator() returns (p: Principal)
      ensures p == creator
    {
      p := creator;
    }

    /** `current_user`: the principal that made this call. */
    method CurrentUser(caller: Principal) returns (p: Principal)
      ensures p == caller
    {
      p := caller;
    }

    /** `transfer(to, amount)` as called by `caller`. */
    method Transfer(caller: Principal, to: Principal, amount: u128) returns (r: TxResult)
      requires TransferFits(balances, caller, to, amount)
      modifies this
      ensures Step(State(), r) == TransferStep(old(State()), caller, to, amount)
      ensures old(Conserved(State())) ==> Conserved(State())
    {
      TransferConserves(State(), caller, to, amount);
      if amount == 0 { return Ok; }
      var fromBal := Bal(balances, caller);
      if fromBal < amount {
        return Err(InsufficientBalance);
      }
      balances := balances[caller := fromBal - amount];
      var toBal := Bal(balances, to);
      balances := balances[to := toBal + amount];
      return Ok;
    }

    /** `mint(to, amount)` as called by `caller`. */
    method Mint(caller: Principal, to: Principal, amount: u128) returns (r: TxResult)
      requires MintFits(balances, creator, caller, to, amount)
      modifies this
      ensures Step(State(), r) == MintStep(old(State()), caller, to, amount)
    {
      if amount == 0 { return Ok; }
      if caller != creator {
        return Err(OnlyCreator);
      }
      var toBal := Bal(balances, to);
      balances := balances[to := toBal + amount];
      totalSupply := SaturatingAdd(totalSupply, amount);
      return Ok;
    }
  }
}
