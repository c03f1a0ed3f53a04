# Hero token: ledger canister and client session

This project models a small fungible token on the Internet Computer. There are two parts, and the client's remote ledger is the ledger model itself:

- **The token canister** (`ledger.dfy`). It has one state record: metadata, a u128 total supply, a principal-to-u128 balance map and a creator. Deployment runs `init`. The canister answers four read-only queries (`get_metadata`, `total_supply`, `balance_of`, `get_creator`) and the `current_user` call. It has two update calls, `transfer` and `mint`.
  - Each transition is first a pure step function over a `LedgerState` value. Those functions carry the contract: the zero-amount short-circuit, the insufficient-balance rejection, the creator-only mint, the saturating supply add and the frame.
  - The class `TokenLedger` keeps the record in mutable fields. `Init`, `Transfer` and `Mint` update them in place and are proved equal to their step functions; the five queries are proved to return the field or caller they read and modify nothing.
  - The caller principal becomes an explicit parameter.
  - The sum of all balances gets lemmas. `init` establishes that it equals the supply, and every transfer keeps it. A mint keeps it below the u128 ceiling and breaks it at the ceiling.
- **The client session** kept by the React `TokenProvider`. It has three parts:
  - `amount.dfy` is the strict amount parser `toNatBigInt`. Its partner is `Format`, the decimal text of an amount.
  - `environment.dfy` is the endpoint rule of `isLocalHost` and `makeAgent`.
  - `session.dfy` is the session class:
    - its fields are `actor`, `me`, `meta`, `creator` and `supply`;
    - its operations are `refreshChain`, `refreshSupply`, `getBalance`, `transfer`, `mint`, `loginWithPrincipal`, `loginWithII` and `logout`.

  An actor (`LedgerActor`) is bound to the canister object and signs with one principal. It records every call it issues in a ghost log, `sent`. That is how "the local checks come before any remote call" is stated.

  Whether the network delivers a call is an input. Every session operation takes `net`, the set of remote calls whose transport fails while it runs. `Principal.fromText` is the session's abstract predicate `isPrincipalText`.

Where the code and its description disagree, the model follows the code:

- `loginWithII` refreshes the chain data through the actor its closure captured, which is the actor from *before* the login. The model's `LoginWithII` does the same.
- No code discards stale async results, and none makes an identity switch atomic. The model claims neither.

## Model

| member | source | states |
|---|---|---|
| Ledger.Bal | src/token_backend/src/lib.rs:70 | a balance as the canister reads it: the stored entry, or 0 when the principal has none |
| Ledger.TransferFits | src/token_backend/src/lib.rs:94-95 | the unchecked `to_bal + amount` of a transfer that reaches it stays within u128 |
| Ledger.MintFits | src/token_backend/src/lib.rs:111-112 | the unchecked `to_bal + amount` of a mint that reaches it stays within u128 |
| Ledger.SaturatingAdd | src/token_backend/src/lib.rs:113 | `u128::saturating_add`: the exact sum when it fits in u128, otherwise `2^128-1`; never more than the sum |
| Ledger.InitStep | src/token_backend/src/lib.rs:40-52 | `init` makes the deployer the creator and gives the deployer a balance equal to the current total supply; every other balance, the metadata and the supply are unchanged |
| Ledger.TransferStep | src/token_backend/src/lib.rs:80-98 | amount 0 returns `Ok` with the state untouched; otherwise `Ok` exactly when the caller's balance (0 if absent) covers the amount, and an `Err("Insufficient balance")` leaves the state unchanged; on success the caller is debited and the recipient credited by the amount, and every other balance, the supply, the creator and the metadata stay; a self-transfer leaves the state unchanged |
| Ledger.MintStep | src/token_backend/src/lib.rs:100-116 | amount 0 returns `Ok` with no change, before the creator test; otherwise `Ok` exactly when the caller is the creator, and `Err("Only the creator can mint tokens")` changes nothing; on success the recipient is credited by the amount and the supply becomes the saturating sum; metadata and creator stay |
| Ledger.MintOnlyCreditsRecipient | src/token_backend/src/lib.rs:111-112 | a mint changes no balance but the recipient's |
| Ledger.Sum | src/token_backend/src/lib.rs:16 | the sum of all stored balances |
| Ledger.Conserved | src/token_backend/src/lib.rs:15-16 | the conservation invariant: the stored balances add up to the total supply |
| Ledger.SumRemove | src/token_backend/src/lib.rs:16 | the sum of the balance map counts each entry exactly once, whichever entry is taken out first |
| Ledger.SumUpdate | src/token_backend/src/lib.rs:50 | overwriting one entry of the balance map changes the sum by the difference between the new and old balances |
| Ledger.PairBound | src/token_backend/src/lib.rs:88-95 | two different accounts together hold no more than the sum of all balances |
| Ledger.InitConserves | src/token_backend/src/lib.rs:20-33 | after `init` on the default state, the balances add up to the total supply |
| Ledger.ConservedTransferFits | src/token_backend/src/lib.rs:94-95 | while balances add up to the supply, the unchecked `to_bal + amount` of a transfer cannot overflow u128 |
| Ledger.TransferConserves | src/token_backend/src/lib.rs:93-95 | every transfer, including a self-transfer, keeps the sum of all balances |
| Ledger.TransferKeepsConserved | src/token_backend/src/lib.rs:80-98 | from a state whose balances add up to the supply, a transfer cannot overflow and leaves a state whose balances still add up to the supply |
| Ledger.MintConserves | src/token_backend/src/lib.rs:111-113 | a mint that does not reach the u128 ceiling keeps the balances adding up to the supply |
| Ledger.MintSaturationBreaksConservation | src/token_backend/src/lib.rs:112-113 | a concrete conserved state at the ceiling where minting 1 succeeds, the supply stays at `2^128-1`, and the balances then sum to one more than the supply; in that state a transfer of 1 back to the creator would overflow |
| Ledger.TokenLedger.constructor | src/token_backend/src/lib.rs:20-33 | the fresh canister holds `State::default()`: "Hero"/"HERO"/8, supply 100 000 000 000 000, no balances and the anonymous creator |
| Ledger.TokenLedger.Init | src/token_backend/src/lib.rs:40-52 | the new state is `InitStep` of the old one |
| Ledger.TokenLedger.GetMetadata | src/token_backend/src/lib.rs:56-59 | returns the stored metadata and modifies nothing |
| Ledger.TokenLedger.TotalSupply | src/token_backend/src/lib.rs:61-64 | returns the stored supply and modifies nothing |
| Ledger.TokenLedger.BalanceOf | src/token_backend/src/lib.rs:66-72 | returns the stored balance, or 0 for a principal without an entry, and modifies nothing |
| Ledger.TokenLedger.GetCreator | src/token_backend/src/lib.rs:74-77 | returns the stored creator and modifies nothing |
| Ledger.TokenLedger.CurrentUser | src/token_backend/src/lib.rs:117-120 | returns the calling principal and modifies nothing |
| Ledger.TokenLedger.Transfer | src/token_backend/src/lib.rs:80-98 | the new state and the result are `TransferStep` of the old state; a conserved state stays conserved |
| Ledger.TokenLedger.Mint | src/token_backend/src/lib.rs:100-116 | the new state and the result are `MintStep` of the old state |
| Amount.OrEmpty | src/token_frontend/src/components/TokenContext.jsx:37 | `String(v ?? "")` and `(text \|\| "")` on a string or a nullish value: the string, or the empty text |
| Amount.IsWhitespace | src/token_frontend/src/components/TokenContext.jsx:37 | the characters `String.prototype.trim` strips: ECMAScript's WhiteSpace and LineTerminator characters |
| Amount.IsDigitString | src/token_frontend/src/components/TokenContext.jsx:38 | the test `/^\d+$/`: one or more ASCII digits and nothing else |
| Amount.DecimalValue | src/token_frontend/src/components/TokenContext.jsx:39 | `BigInt(s)` on a digit string: its decimal value |
| Amount.BlanksFrom | src/token_frontend/src/components/TokenContext.jsx:37 | the end of the whitespace run starting at an index: everything before it is whitespace, the character at it is not |
| Amount.BlanksBefore | src/token_frontend/src/components/TokenContext.jsx:37 | the start of the whitespace run ending at an index: everything after it is whitespace, the character before it is not |
| Amount.BlanksFromUnique | src/token_frontend/src/components/TokenContext.jsx:37 | the leading whitespace run is determined by where it stops |
| Amount.BlanksBeforeUnique | src/token_frontend/src/components/TokenContext.jsx:37 | the trailing whitespace run is determined by where it starts |
| Amount.TrimStart | src/token_frontend/src/components/TokenContext.jsx:37 | the result is a suffix of the input, what was removed is whitespace, and the result does not start with whitespace |
| Amount.TrimEnd | src/token_frontend/src/components/TokenContext.jsx:37 | the result is a prefix of the input, what was removed is whitespace, and the result does not end with whitespace |
| Amount.Trim | src/token_frontend/src/components/TokenContext.jsx:37 | the result neither starts nor ends with whitespace |
| Amount.TrimIsInfix | src/token_frontend/src/components/TokenContext.jsx:37 | trimming keeps a contiguous infix of the text and removes only whitespace on either side of it |
| Amount.TrimOfDigits | src/token_frontend/src/components/TokenContext.jsx:37 | trimming leaves a digit string unchanged |
| Amount.Digit | src/token_frontend/src/components/TokenContext.jsx:39 | the digit character of a value below 10 is a digit and denotes that value |
| Amount.ToNat | src/token_frontend/src/components/TokenContext.jsx:36-40 | `toNatBigInt` succeeds exactly when the trimmed text of `String(v ?? "")` is one or more ASCII digits |
| Amount.Format | src/token_frontend/src/components/TokenContext.jsx:36-40 | the decimal text of an amount is a non-empty digit string with no leading zero |
| Amount.StripLeadingZeros | src/token_frontend/src/components/TokenContext.jsx:39 | the result is a suffix of the digits, everything dropped is `0`, a non-empty string keeps at least one digit, and the result has no redundant leading zero |
| Amount.DecimalValueOfFormat | src/token_frontend/src/components/TokenContext.jsx:39 | the text `Format` prints denotes the amount it was printed from |
| Amount.LeadingZeroIrrelevant | src/token_frontend/src/components/TokenContext.jsx:39 | a leading `0` does not change the value of a digit string |
| Amount.PositiveWithoutLeadingZero | src/token_frontend/src/components/TokenContext.jsx:39 | a digit string that starts with a non-zero digit denotes at least 1 |
| Amount.FormatOfCanonical | src/token_frontend/src/components/TokenContext.jsx:39 | a digit string with no redundant leading zero is exactly the decimal text of its value |
| Amount.FormatOfDecimalValue | src/token_frontend/src/components/TokenContext.jsx:39 | parsing and then printing gives the digits back with leading zeros stripped |
| Amount.SameValueUpToLeadingZeros | src/token_frontend/src/components/TokenContext.jsx:36-40 | two digit strings that differ only in leading zeros parse to the same amount |
| Amount.FormatRoundTrip | src/token_frontend/src/components/TokenContext.jsx:36-40 | the decimal text of every amount parses back to that amount |
| Amount.TrimStartPadded | src/token_frontend/src/components/TokenContext.jsx:37 | leading whitespace in front of text that starts with a non-blank is stripped exactly |
| Amount.TrimEndPadded | src/token_frontend/src/components/TokenContext.jsx:37 | trailing whitespace after text that ends with a non-blank is stripped exactly |
| Amount.PaddedDigits | src/token_frontend/src/components/TokenContext.jsx:36-40 | digits surrounded by whitespace parse to the value of the digits |
| Amount.RejectedBlank | src/token_frontend/src/components/TokenContext.jsx:37-38 | every input whose text is empty or only whitespace (`null`, `undefined`, "", " \t\n", ...) is refused |
| Amount.TrimKeeps | src/token_frontend/src/components/TokenContext.jsx:37 | trimming drops no character that is not whitespace: each one reappears in the trimmed text |
| Amount.RejectedForeignChar | src/token_frontend/src/components/TokenContext.jsx:37-38 | any input with a character that is neither a digit nor whitespace (a sign, a decimal point, a letter) is refused, wherever it stands |
| Environment.Host | src/token_frontend/src/components/TokenContext.jsx:28 | `location.host`: the host name, followed by `:port` when there is a port |
| Environment.IsLocalHost | src/token_frontend/src/components/TokenContext.jsx:18-24 | `isLocalHost`: the host name is `localhost` or `127.0.0.1`, or ends with `.localhost` |
| Environment.PrincipalOf | src/token_frontend/src/components/TokenContext.jsx:30 | the agent signs with the given identity, or anonymously when there is none |
| Environment.AgentHost | src/token_frontend/src/components/TokenContext.jsx:27-29 | `protocol//host` for a local host name, otherwise `https://icp0.io` |
| Environment.MakeAgent | src/token_frontend/src/components/TokenContext.jsx:26-33 | an agent results exactly when the host is not local or the root-key fetch succeeds; it is ready, uses `AgentHost`, needs and has fetched the root key exactly for a local host, and signs with the identity's principal |
| Environment.LocalHostIff | src/token_frontend/src/components/TokenContext.jsx:18-24 | a host name is local exactly when it is `localhost`, `127.0.0.1` or some name followed by `.localhost` |
| Environment.NotLocal | src/token_frontend/src/components/TokenContext.jsx:18-24 | names that merely contain `localhost`, and the production host name, are not local |
| Environment.RootKeyOnlyForLocal | src/token_frontend/src/components/TokenContext.jsx:31 | off a local host the root key is never fetched: the agent does not depend on how that fetch would go |
| Session.ToReport | src/token_frontend/src/components/TokenContext.jsx:114-116 | `Ok` becomes `{ok: true}` with no error, and `Err(e)` becomes `{ok: false, err: e}` |
| Session.ToReportInjective | src/token_frontend/src/components/TokenContext.jsx:114-116 | different ledger results are never reported alike |
| Session.Validate | src/token_frontend/src/components/TokenContext.jsx:110-112 | "Actor not ready" without an actor, then an invalid recipient principal, then "Amount must be a whole number (nat)." in that order; it passes exactly when all three checks pass, with the parsed amount |
| Session.LedgerActor.constructor | src/token_frontend/src/components/TokenContext.jsx:56 | a new actor is bound to its agent and the canister and has issued no call |
| Session.LedgerActor.GetMetadata | src/token_frontend/src/components/TokenContext.jsx:86 | logs the query; returns the canister's metadata unless the transport fails |
| Session.LedgerActor.GetCreator | src/token_frontend/src/components/TokenContext.jsx:87 | logs the query; returns the canister's creator unless the transport fails |
| Session.LedgerActor.TotalSupply | src/token_frontend/src/components/TokenContext.jsx:88 | logs the query; returns the canister's supply unless the transport fails |
| Session.LedgerActor.BalanceOf | src/token_frontend/src/components/TokenContext.jsx:104 | logs the query; returns the canister's balance for the principal (0 if absent) unless the transport fails |
| Session.LedgerActor.Transfer | src/token_frontend/src/components/TokenContext.jsx:113 | logs the update; a transport fault or an amount beyond u128 leaves the canister untouched, otherwise the canister takes `TransferStep` signed by the actor's principal and its result is delivered |
| Session.LedgerActor.Mint | src/token_frontend/src/components/TokenContext.jsx:124 | logs the update; a transport fault or an amount beyond u128 leaves the canister untouched, otherwise the canister takes `MintStep` signed by the actor's principal and its result is delivered |
| Session.TokenSession.constructor | src/token_frontend/src/components/TokenContext.jsx:42-50 | no actor, `me` is the hard-coded default principal, metadata "Hero"/"HERO"/8, empty creator, supply 0, initialised |
| Session.TokenSession.BuildAnonymousActor | src/token_frontend/src/components/TokenContext.jsx:52-59 | when `makeAgent(undefined)` succeeds, a fresh anonymous actor is installed; otherwise the actor stays |
| Session.TokenSession.FetchChain | src/token_frontend/src/components/TokenContext.jsx:84-92 | without an actor nothing changes; otherwise all three queries are sent, and metadata, creator and supply are written together exactly when all three are delivered, and none is written when one fails |
| Session.TokenSession.RefreshChain | src/token_frontend/src/components/TokenContext.jsx:83-93 | same as `FetchChain` for the current actor |
| Session.TokenSession.RefreshSupply | src/token_frontend/src/components/TokenContext.jsx:95-99 | without an actor nothing changes; otherwise the supply query is sent and the supply becomes the canister's, unless the query fails, in which case the supply stays |
| Session.TokenSession.GetBalance | src/token_frontend/src/components/TokenContext.jsx:101-106 | 0 without an actor or for empty text, with no call; an invalid principal is refused before any call; otherwise the canister's balance for that principal; it writes no session field |
| Session.TokenSession.Settle | src/token_frontend/src/components/TokenContext.jsx:114-116 | an `Err` is reported without a call and without touching the supply; an `Ok` refreshes the supply and is reported as success only if that refresh succeeds |
| Session.TokenSession.Transfer | src/token_frontend/src/components/TokenContext.jsx:109-117 | a failed local check throws without any call or change; otherwise the update goes out signed by the actor's principal, and the canister ends in `TransferStep` of its old state; an `Err` is reported with the supply untouched; an `Ok` refreshes the supply; the supply moves only after a reported success |
| Session.TokenSession.Mint | src/token_frontend/src/components/TokenContext.jsx:120-128 | the same as `Transfer`, with `MintStep` |
| Session.TokenSession.LoginWithPrincipal | src/token_frontend/src/components/TokenContext.jsx:131-136 | blank text throws "Principal cannot be empty" and sends nothing; otherwise `me` becomes the trimmed text, the actor (so the signing principal) stays, one balance query is sent if the text is a principal, and its errors are swallowed |
| Session.TokenSession.LoginWithII | src/token_frontend/src/components/TokenContext.jsx:139-162 | a failed login or root-key fetch changes nothing; otherwise a fresh actor signed by the identity is installed and `me` becomes its principal; the refresh that follows goes through the previous actor and commits all three cached fields or none |
| Session.TokenSession.Logout | src/token_frontend/src/components/TokenContext.jsx:165-170 | a fresh anonymous actor replaces the current one and `me` becomes "2vxsx-fae"; if the agent cannot be built, nothing changes |

## Left out

- Ledger.TokenLedger.Transfer and Ledger.TokenLedger.Mint: an overflowing `to_bal + amount` is excluded by a precondition (`TransferFits`, `MintFits`), because in Rust it wraps or traps depending on build flags. `ConservedTransferFits` shows the transfer precondition holds while balances add up to the supply. That is not always the case in a reachable state: once a mint has saturated the supply, the balances exceed it, and `MintSaturationBreaksConservation` exhibits such a state in which a transfer of 1 back to the creator does overflow (lib.rs:95). That transfer is outside the model.
- Session.TokenSession.Transfer and Session.TokenSession.Mint: they carry the same overflow precondition about the canister.
- Session.TokenSession.FetchChain and Session.TokenSession.RefreshChain: `Promise.all` rejects with whichever query fails first in time. The contracts only say that the error names a failed query, not which one.
- Transport faults happen before the call takes effect. A reply lost after the canister has applied an update is not modelled.
- An amount beyond u128 is rejected by candid decoding on the canister side. The model treats it as a failed call that changes nothing.
- The `current_user` override of `me` in the effect that runs when the actor changes is not modelled (TokenContext.jsx:66-73). It is best-effort only. The same effect's `refreshChain` is the `RefreshChain` method, and its errors are only logged.
- React effect scheduling, async interleaving and re-renders are not modelled. The page calls operations one after another.
- The `AuthClient` login flow and identity provider are foreign calls (TokenContext.jsx:140-153). `LoginWithII` instead takes the identity that flow yields, or `None` when it fails.
- `Principal.fromText` and `toText` belong to a library that is not part of this model. Principals are their text, and `isPrincipalText` is an abstract validity predicate.
- `HttpAgent`, `fetchRootKey` networking and `createTokenActor` are left out. Only the host choice and whether the root-key fetch succeeds are modelled.
- `toNatBigInt` on values other than strings and `null`/`undefined` is left out. That covers `String()` of numbers, BigInts and objects.
- The `useToken` hook and the context object are left out. The `initialized` constant is modelled as the session field `initialized`, which is always true.
- Console logging, the canister runtime plumbing (`thread_local!`, `RefCell`, `ic_cdk` attributes, `export_candid!`) and the presentation components are not modelled.
