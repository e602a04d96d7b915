# DigitalWill / LockStream — a verified model of the will registry

LockStream lets an owner lock a "digital will" on the Stellar network: a content
hash and a list of beneficiaries that are released once.

This project models the parts of the repository that decide what happens:

- **The Soroban will contract** (`will.rs`). It keeps a table of wills keyed by
  owner, with `create`, `get` and `execute`. `create` needs the owner's
  authorisation and overwrites any earlier will. `execute` marks a pending will
  executed and panics on a second execution. An unknown owner is a no-op.
- **The back end's ledger service** (`soroban.ts`). It covers:
  - the choice of network passphrase and RPC endpoint from the environment;
  - the `config/contracts.json` gate, which refuses missing, empty or
    `REPLACE...` ids;
  - the memo each operation writes;
  - how the ledger's reply turns into a transaction id or an error;
  - the `getWill` stub.
- **The back end's HTTP handlers** (`will.controller.ts`). They validate the
  input, call the service and answer 400, 201/200 or 500.
- **The legacy front end's logic** (`App.jsx`). It covers:
  - the 56-character recipient heuristic;
  - the unlock countdown;
  - the submit flow, with its three guards, the post to the back end, and the
    simulated save that appends to the session history and clears the form.

The model is made of five modules:

- `Js` (`js.dfy`) holds the JavaScript semantics the other modules need: JSON
  values and truthiness, `err?.message ?? fallback`, the decimal text of
  integers, UTF-16 `length`, and template-literal conversion.
- `WillContract` (`will_contract.dfy`) models the contract. Each invocation is a
  pure function from storage to a receipt and new storage. The class `Will`
  holds the storage as a field, and its methods are proved to follow those
  functions. Lemmas over arbitrary sequences of invocations show that a will is
  released at most once per authorised creation.
- `Soroban` (`soroban.dfy`) models the ledger service. The ledger is an oracle:
  its reply is a parameter, and a service run records the transaction it
  submitted. Memo texts are proved injective through a parser that reads them
  back.
- `WillController` (`will_controller.dfy`) models the handlers. Each one is a
  function of the request and of the service outcome. End-to-end lemmas compose
  the handlers with the service.
- `LegacyApp` (`app.dfy`) models the front end. The component's state hooks are
  the class `App`. Its methods are proved to follow the pure transitions
  `Submit`, `AfterSave` and `UpdateCountdown`, and the properties are proved
  about those transitions.

Behaviour of the code a reader might not expect:

- `execute` checks neither an unlock time nor authorisation.
- The controller accepts an empty or unvalidated beneficiary list.
- `createWill` sends neither the content hash nor the beneficiaries to the
  ledger, only the `will:create:<owner>` memo.
- `getWill` returns a fixed record.
- The session history lives in memory only.
- With `SOROBAN_NETWORK` and `SOROBAN_RPC_URL` both unset, a transaction carries
  the Testnet passphrase but goes to the Futurenet endpoint
  (`Soroban.UnsetEnvironmentMixesNetworks`).

## Model

| member | source | states |
|---|---|---|
| WillContract.CreateEffect | LockStream3/main/contracts/will_contract/src/will.rs:17-25 | completes iff authorised; unauthorised aborts with storage unchanged; authorised stores a fresh unexecuted will with the given hash and beneficiaries, replacing any earlier one; every other owner's entry is unchanged; the owner set grows by exactly the owner |
| WillContract.ExecuteEffect | LockStream3/main/contracts/will_contract/src/will.rs:31-41 | aborts (AlreadyExecuted, storage unchanged) iff the will exists and is executed; an unknown owner completes with storage unchanged; a pending will becomes executed with hash and beneficiaries kept; other owners and the owner set unchanged; never pending afterwards |
| WillContract.Will.constructor | LockStream3/main/contracts/will_contract/src/will.rs:12-13 | a fresh contract instance has empty storage |
| WillContract.Will.Create | LockStream3/main/contracts/will_contract/src/will.rs:17-25 | receipt and new storage are exactly those of CreateEffect on the old storage |
| WillContract.Will.Get | LockStream3/main/contracts/will_contract/src/will.rs:27-29 | returns the owner's stored will, or None exactly when the owner has none |
| WillContract.Will.Execute | LockStream3/main/contracts/will_contract/src/will.rs:31-41 | receipt and new storage are exactly those of ExecuteEffect on the old storage |
| WillContract.ReleasedOncePerCreation | LockStream3/main/contracts/will_contract/src/will.rs:31-41 | over any sequence of invocations, releases of an owner's will (plus one if still pending at the end) never exceed its authorised creations (plus one if pending at the start) |
| WillContract.ReleasedAtMostOnce | LockStream3/main/contracts/will_contract/src/will.rs:33-39 | without a new create a will is released at most once, and never if it was not pending |
| WillContract.OtherOwnersUntouched | LockStream3/main/contracts/will_contract/src/will.rs:24 | invocations naming other owners leave an owner's entry as it was |
| WillContract.SecondExecuteAborts | LockStream3/main/contracts/will_contract/src/will.rs:34-36 | executing an existing will twice in a row makes the second call abort with AlreadyExecuted |
| WillContract.CreateResetsExecuted | LockStream3/main/contracts/will_contract/src/will.rs:19-24 | an authorised create over an executed will makes it pending again, so execute completes once more |
| Soroban.SelectNetwork | LockStream3/main/backend/src/services/soroban.ts:7-10 | Futurenet passphrase iff SOROBAN_NETWORK is exactly "futurenet", Testnet otherwise |
| Soroban.RpcUrl | LockStream3/main/backend/src/services/soroban.ts:12 | a set, non-empty SOROBAN_RPC_URL is used as is; unset or empty falls back to the Futurenet RPC endpoint; never empty |
| Soroban.UnsetEnvironmentMixesNetworks | LockStream3/main/backend/src/services/soroban.ts:7-12 | with neither variable set, the passphrase is Testnet while the endpoint is Futurenet's |
| Soroban.RequireContractId | LockStream3/main/backend/src/services/soroban.ts:21-27 | returns the id unchanged iff it is present, non-empty and does not start with "REPLACE"; otherwise throws "Missing <name> in config/contracts.json" |
| Soroban.MemoRoundTrip | LockStream3/main/backend/src/services/soroban.ts:42-67 | the create, execute and mint memo texts are read back by ParseMemo to the operation and arguments that produced them |
| Soroban.MemoTextInjective | LockStream3/main/backend/src/services/soroban.ts:42-67 | two memos with the same text are the same operation with the same arguments |
| Soroban.SubmitResult | LockStream3/main/backend/src/services/soroban.ts:29-40 | a failed fetch or send rethrows its error; an error result throws "Transaction failed"; otherwise returns the id, or else the hash, or undefined when both are missing |
| Soroban.Invoke | LockStream3/main/backend/src/services/soroban.ts:29-40 | a transaction is handed to the ledger oracle (which fetches the account, signs and sends, and may fail at any of those steps) iff the contract id is configured; otherwise the configuration error is thrown before any ledger contact; a submitted transaction carries the memo, the selected passphrase and endpoint, fee "10000" and a 60-second timeout, and the result is SubmitResult of the reply |
| Soroban.CreateWill | LockStream3/main/backend/src/services/soroban.ts:42-46 | gated on willContractId; submits memo "will:create:" followed by the owner as a template literal renders it, on the selected passphrase and endpoint, and returns SubmitResult of the ledger reply; missing id throws the willContractId message |
| Soroban.CreateWillIgnoresPayload | LockStream3/main/backend/src/services/soroban.ts:42-46 | what createWill submits and returns is the same whatever the content hash and beneficiaries |
| Soroban.ExecuteWill | LockStream3/main/backend/src/services/soroban.ts:57-61 | gated on willContractId; submits memo "will:execute:<owner>", on the selected passphrase and endpoint, and returns SubmitResult of the ledger reply; missing id throws the willContractId message |
| Soroban.MintToken | LockStream3/main/backend/src/services/soroban.ts:63-67 | gated on tokenContractId; submits memo "token:mint:<to>:<amount>" with the amount in decimal, on the selected passphrase and endpoint, and returns SubmitResult of the ledger reply; missing id throws the tokenContractId message |
| Soroban.GetWill | LockStream3/main/backend/src/services/soroban.ts:48-55 | returns the requested owner with content hash "QmDummyHash", no beneficiaries and executed false, for every owner |
| Js.MessageOr | LockStream3/main/backend/src/controllers/will.controller.ts:18 | a thrown error's message when it has one (an empty message included), the fallback only when it is absent |
| Js.NumberTextRoundTrip | LockStream3/main/backend/src/services/soroban.ts:66 | the decimal text of an integer reads back to that integer, and it is the only text that does |
| Js.NumberTextInjective | LockStream3/main/backend/src/services/soroban.ts:66 | different amounts give different decimal texts |
| WillController.Create | LockStream3/main/backend/src/controllers/will.controller.ts:6-20 | calls createWill (with owner, hash and the array's items) iff owner and contentHash are truthy and beneficiaries is an array; 400 with the fixed message exactly otherwise; 201 with {ok, txId} iff the call returned; 500 with the error's message or "create failed" iff it threw |
| WillController.Get | LockStream3/main/backend/src/controllers/will.controller.ts:23-36 | calls getWill with the owner iff it is present and non-empty; 400 "owner param required" otherwise; 200 with the record iff the call returned; 500 with message or "get failed" iff it threw |
| WillController.Execute | LockStream3/main/backend/src/controllers/will.controller.ts:39-52 | calls executeWill with the owner iff it is present and non-empty; 400 otherwise; 200 with {ok, txId} iff the call returned; 500 with message or "execute failed" iff it threw |
| WillController.EmptyBeneficiariesAccepted | LockStream3/main/backend/src/controllers/will.controller.ts:10 | an empty beneficiaries array passes validation and reaches the service |
| WillController.EmptyMessageKept | LockStream3/main/backend/src/controllers/will.controller.ts:50 | an error with an empty message answers 500 with the empty message, not the fallback |
| WillController.PostWill | LockStream3/main/backend/src/controllers/will.controller.ts:6-20 | for a valid body: an unconfigured will contract means no transaction and 500 with the configuration message; a configured one submits "will:create:<owner>" and answers 201 iff the ledger accepted |
| WillController.GetWillEndToEnd | LockStream3/main/backend/src/controllers/will.controller.ts:23-36 | any non-empty owner gets 200 with the stub record for that owner |
| WillController.ExecuteEndToEnd | LockStream3/main/backend/src/controllers/will.controller.ts:39-52 | with the contract configured and the ledger accepting, any non-empty owner gets 200 with the transaction id: there is no unlock-time check |
| LegacyApp.IsValidRecipient | LockStream2-main/legacychain-frontend/src/App.jsx:65 | an accepted recipient starts with 'G' and has 28 to 56 characters; for text in the Basic Multilingual Plane, accepted iff it has exactly 56 characters and starts with 'G' |
| LegacyApp.RecipientBoundaries | LockStream2-main/legacychain-frontend/src/App.jsx:65 | 55 characters are rejected, 56 not starting with 'G' are rejected, 56 starting with 'G' are accepted |
| LegacyApp.AstralCharacterCountsTwice | LockStream2-main/legacychain-frontend/src/App.jsx:65 | 54 plain characters starting with 'G' plus one emoji pass the check, because `length` counts UTF-16 code units |
| LegacyApp.RemainingTime | LockStream2-main/legacychain-frontend/src/App.jsx:97-99 | hours below 24 and minutes below 60, and days, hours and minutes add up to the remaining time rounded down to a whole minute |
| LegacyApp.RemainingTimeUnique | LockStream2-main/legacychain-frontend/src/App.jsx:97-99 | any days/hours/minutes triple with those bounds that brackets the remaining time is the computed one |
| LegacyApp.UpdateCountdown | LockStream2-main/legacychain-frontend/src/App.jsx:70-102 | no date clears the countdown; an invalid date shows the error before the sign of the difference matters; a past instant shows the unlocked text; a future one shows the remaining-time text; decryption is tried iff unlocked with a non-empty secret, never shows an empty text, shows the plaintext when it is non-empty, and shows the decryption-failed text for an empty plaintext or a thrown decrypt |
| LegacyApp.TwentyFiveHours | LockStream2-main/legacychain-frontend/src/App.jsx:97-100 | 25 hours before unlock the countdown reads "1 gün 1 saat 0 dakika" |
| LegacyApp.AfterSave | LockStream2-main/legacychain-frontend/src/App.jsx:110-133 | the history gains exactly one entry with the hash, date, amount and recipient; the form is cleared; hash, status and toast are shown; loading ends; the wallet is kept |
| LegacyApp.Submit | LockStream2-main/legacychain-frontend/src/App.jsx:136-172 | posts iff wallet connected, required fields filled and recipient valid, each failing guard only setting its toast; the request carries the form and wallet; an accepted reply saves; any other reply shows the server error; no reply shows the back-end-down error |
| LegacyApp.SubmitHistory | LockStream2-main/legacychain-frontend/src/App.jsx:161-166 | a submit extends the history by one entry iff the request was sent and the reply accepted, and otherwise leaves it unchanged |
| LegacyApp.NoSecondSaveWithoutNewInput | LockStream2-main/legacychain-frontend/src/App.jsx:126-130 | after a save, an immediate second submit posts nothing and adds no history entry |
| LegacyApp.HistoryAppendOnly | LockStream2-main/legacychain-frontend/src/App.jsx:117-125 | over any run of submits the old history is a prefix of the new one, which grows by at most one entry per submit |
| LegacyApp.App.constructor | LockStream2-main/legacychain-frontend/src/App.jsx:10-25 | every hook starts empty except the connected wallet address |
| LegacyApp.App.SaveToBlockchain | LockStream2-main/legacychain-frontend/src/App.jsx:110-133 | the component state after the timer is AfterSave of the state before; countdown and decrypted message untouched |
| LegacyApp.App.HandleSubmit | LockStream2-main/legacychain-frontend/src/App.jsx:136-172 | the request sent and the new component state are exactly Submit of the old state |
| LegacyApp.App.RefreshCountdown | LockStream2-main/legacychain-frontend/src/App.jsx:70-102 | countdown and decrypted message are set as UpdateCountdown says for the current unlock date and secret; the rest of the state is unchanged |

## Left out

- The Express application and routes (`app.ts`, `routes/will.ts`) only mount the
  handlers, so they are not modelled; a handler is given its request fields
  directly.
- The ledger client is an oracle whose reply is a parameter. This covers
  `getAccount`, `TransactionBuilder`, signing and `sendTransaction`.
- The placeholder `bumpSequence` operation, and the limit on Stellar text-memo
  length, are not modelled.
- Loading `ACCOUNT_SECRET_KEY` and `dotenv`, including the startup error when the
  key is missing, happens before any handler runs and is not modelled.
- Soroban host storage is a map. Its persistence and lifetime are not modelled.
- `require_auth` is modelled as a boolean input.
- A panic is an aborted receipt. Since the contract writes nothing before it
  panics, the host's roll-back needs no separate model.
- CryptoJS AES is not modelled. The ciphertext sent to the back end is
  represented by its plaintext, and decryption is an oracle result. The
  hard-coded key is not modelled.
- The Freighter wallet connection, clipboard copy and the toast and feedback
  timers are not modelled. The wallet address is modelled as a string. When
  `getAddress()` returns an object whose `address` is falsy, the fallback
  `obj.address || obj` stores that object itself, which then passes the wallet
  guard and is posted as `owner`; that case is not represented.
- Rendering (JSX) is not modelled.
- `fetch` and `response.json()` are not modelled; the back end's decoded reply,
  or its absence, is a parameter.
- Dates are parameters. Parsing the `datetime-local` value and
  `toLocaleString()` are oracles, and instants are integer milliseconds.
- `setInterval` re-running `updateCountdown` every 30 seconds, and the effect
  re-running when the unlock date or secret changes, are not automatic.
  `App.RefreshCountdown` is one run.
- LegacyApp.App.HandleSubmit: the 1.5-second window of `saveToBlockchain` is
  taken as ending before the next user event. A second submit inside that
  window, and stale closure values, are not captured. The
  "waiting for wallet" status shown during the window is set and then
  overwritten.
- The four form hooks of the component are grouped into one `form` field. Each
  is still set exactly as the component sets it.
- JavaScript numbers are integers here. Fractions, NaN, and the exponent form
  `${n}` uses at 1e21 and above are not modelled, so `Soroban.MintToken` covers
  integer amounts only.
- JSON objects are opaque; their text is "[object Object]".
- Strings are sequences of Unicode scalar values, so lone surrogates cannot be
  represented.
