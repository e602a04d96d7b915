/**
 * The back end's ledger service (backend/src/services/soroban.ts): network and
 * RPC selection from the environment, the contract-id configuration gate,
 * the memo each operation writes, the submission of a transaction, and the
 * `getWill` stub.
 *
 * The ledger itself (fetching the account, building, signing and sending) is
 * an oracle: a service run says which transaction it handed to the ledger, if
 * any, and the ledger's reply is a parameter.
 */
module Soroban {
  import opened Js

  // ---------------------------------------------------------------------------
  // Environment
  // ---------------------------------------------------------------------------

  datatype Network = Futurenet | Testnet

  /** `SOROBAN_NETWORK` and `SOROBAN_RPC_URL`, each possibly unset. */
  datatype Environment = Environment(sorobanNetwork: Option<string>, sorobanRpcUrl: Option<string>)

  const FuturenetRpcUrl := "https://rpc-futurenet.stellar.org"

  /** The network passphrase: Futurenet only for exactly "futurenet", Testnet otherwise. */
  function SelectNetwork(env: Environment): (n: Network)
    ensures n == Futurenet <==> env.sorobanNetwork == Some("futurenet")
  {
    if env.sorobanNetwork == Some("futurenet") then Futurenet else Testnet
  }

  /** `SOROBAN_RPC_URL || default`: an unset or empty variable falls back to the Futurenet endpoint. */
  function RpcUrl(env: Environment): (url: string)
    ensures url != ""
    ensures env.sorobanRpcUrl.Some? && env.sorobanRpcUrl.value != "" ==> url == env.sorobanRpcUrl.value
    ensures env.sorobanRpcUrl.None? || env.sorobanRpcUrl == Some("") ==> url == FuturenetRpcUrl
  {
    match env.sorobanRpcUrl
    case Some(u) => if u != "" then u else FuturenetRpcUrl
    case None => FuturenetRpcUrl
  }

  /** With neither variable set, transactions carry the Testnet passphrase but go to the Futurenet endpoint. */
  lemma UnsetEnvironmentMixesNetworks()
    ensures SelectNetwork(Environment(None, None)) == Testnet
    ensures RpcUrl(Environment(None, None)) == FuturenetRpcUrl
  {
  }

  // ---------------------------------------------------------------------------
  // Contract-id configuration (config/contracts.json)
  // ---------------------------------------------------------------------------

  datatype ContractName = WillContractId | TokenContractId

  /** The entries of `config/contracts.json`; a missing key is an absent entry. */
  type ContractsConfig = map<ContractName, string>

  /** An id that is present, non-empty and not a "REPLACE..." placeholder. */
  predicate Configured(contracts: ContractsConfig, name: ContractName) {
    name in contracts && contracts[name] != "" && !StartsWith(contracts[name], "REPLACE")
  }

  /** `Missing ${name} in config/contracts.json`. */
  function MissingIdMessage(name: ContractName): string {
    match name
    case WillContractId => "Missing willContractId in config/contracts.json"
    case TokenContractId => "Missing tokenContractId in config/contracts.json"
  }

  /** `requireContractId`: the configured id unchanged, or an error naming the missing key. */
  function RequireContractId(contracts: ContractsConfig, name: ContractName): (r: Outcome<string>)
    ensures r.Returned? <==> Configured(contracts, name)
    ensures r.Returned? ==> r.value == contracts[name]
    ensures r.Threw? ==> r.message == Some(MissingIdMessage(name))
  {
    if name !in contracts || contracts[name] == "" || StartsWith(contracts[name], "REPLACE") then
      Threw(Some(MissingIdMessage(name)))
    else
      Returned(contracts[name])
  }

  // ---------------------------------------------------------------------------
  // Memos
  // ---------------------------------------------------------------------------

  /** The memo of each operation, before it is written out as text. */
  datatype Memo =
    | CreateMemo(owner: string)
    | ExecuteMemo(owner: string)
    | MintMemo(to: string, amount: int)

  const CreatePrefix := "will:create:"
  const ExecutePrefix := "will:execute:"
  const MintPrefix := "token:mint:"

  /** `will:create:<owner>`, `will:execute:<owner>`, `token:mint:<to>:<amount>`. */
  function MemoText(m: Memo): string {
    match m
    case CreateMemo(owner) => CreatePrefix + owner
    case ExecuteMemo(owner) => ExecutePrefix + owner
    case MintMemo(to, amount) => MintPrefix + to + ":" + NumberText(amount)
  }

  /** The position of the last ':' in `s`, if any. */
  function LastColon(s: string): (k: Option<nat>)
    ensures k.Some? ==> k.value < |s| && s[k.value] == ':' && ':' !in s[k.value + 1..]
    ensures k.None? ==> ':' !in s
  {
    if s == [] then None
    else if s[|s| - 1] == ':' then Some(|s| - 1)
    else
      var k := LastColon(s[..|s| - 1]);
      assert k.Some? ==> s[k.value + 1..] == s[..|s| - 1][k.value + 1..] + [s[|s| - 1]];
      k
  }

  /** Reads a memo text back; it tells the three operations and their arguments apart. */
  function ParseMemo(text: string): Option<Memo> {
    if StartsWith(text, CreatePrefix) then Some(CreateMemo(text[|CreatePrefix|..]))
    else if StartsWith(text, ExecutePrefix) then Some(ExecuteMemo(text[|ExecutePrefix|..]))
    else if StartsWith(text, MintPrefix) then ParseMintArgs(text[|MintPrefix|..])
    else None
  }

  /** Reads `<to>:<amount>`, splitting at the last ':' since `to` may itself hold colons. */
  function ParseMintArgs(rest: string): Option<Memo> {
    match LastColon(rest)
    case None => None
    case Some(k) =>
      match ParseNumber(rest[k + 1..])
      case None => None
      case Some(amount) => Some(MintMemo(rest[..k], amount))
  }

  lemma CreateMemoRoundTrip(owner: string)
    ensures ParseMemo(MemoText(CreateMemo(owner))) == Some(CreateMemo(owner))
  {
  }

  lemma ExecuteMemoRoundTrip(owner: string)
    ensures ParseMemo(MemoText(ExecuteMemo(owner))) == Some(ExecuteMemo(owner))
  {
    var text := MemoText(ExecuteMemo(owner));
    assert !StartsWith(text, CreatePrefix) by {
      assert text[5] == 'e' && CreatePrefix[5] == 'c';
    }
    assert text[..|ExecutePrefix|] == ExecutePrefix;
    assert text[|ExecutePrefix|..] == owner;
  }

  /** The last ':' of `to + ":" + digits` is the one after `to`. */
  lemma LastColonOfMint(to: string, digits: string)
    requires ':' !in digits
    ensures LastColon(to + ":" + digits) == Some(|to|)
  {
    var rest := to + ":" + digits;
    assert rest[|to|] == ':';
    assert rest[|to| + 1..] == digits;
  }

  lemma MintArgsRoundTrip(to: string, amount: int)
    ensures ParseMintArgs(to + ":" + NumberText(amount)) == Some(MintMemo(to, amount))
  {
    var digits := NumberText(amount);
    var rest := to + ":" + digits;
    LastColonOfMint(to, digits);
    assert rest[|to| + 1..] == digits;
    assert rest[..|to|] == to;
    NumberTextRoundTrip(amount, "");
  }

  /** A string does not start with a prefix whose first character it lacks. */
  lemma FirstCharRulesOut(text: string, prefix: string)
    requires |text| > 0 && |prefix| > 0 && text[0] != prefix[0]
    ensures !StartsWith(text, prefix)
  {
  }

  lemma MintMemoRoundTrip(to: string, amount: int)
    ensures ParseMemo(MemoText(MintMemo(to, amount))) == Some(MintMemo(to, amount))
  {
    var args := to + ":" + NumberText(amount);
    var text := MintPrefix + args;
    assert MemoText(MintMemo(to, amount)) == text;
    FirstCharRulesOut(text, CreatePrefix);
    FirstCharRulesOut(text, ExecutePrefix);
    assert text[..|MintPrefix|] == MintPrefix;
    assert text[|MintPrefix|..] == args;
    MintArgsRoundTrip(to, amount);
  }

  /** `ParseMemo` inverts `MemoText`. */
  lemma MemoRoundTrip(m: Memo)
    ensures ParseMemo(MemoText(m)) == Some(m)
  {
    match m
    case CreateMemo(owner) => CreateMemoRoundTrip(owner);
    case ExecuteMemo(owner) => ExecuteMemoRoundTrip(owner);
    case MintMemo(to, amount) => MintMemoRoundTrip(to, amount);
  }

  /** Distinct operations or arguments never share a memo. */
  lemma MemoTextInjective(m1: Memo, m2: Memo)
    requires MemoText(m1) == MemoText(m2)
    ensures m1 == m2
  {
    MemoRoundTrip(m1);
    MemoRoundTrip(m2);
  }

  // ---------------------------------------------------------------------------
  // Submission
  // ---------------------------------------------------------------------------

  /** A transaction handed to the ledger; its single operation is a placeholder sequence bump. */
  datatype Transaction = Transaction(passphrase: Network, rpcUrl: string, fee: string, timeoutSeconds: nat, memo: string)

  /** What the ledger gives back for a sent transaction, or the error fetching or sending threw. */
  datatype LedgerReply =
    | Sent(hasErrorResult: bool, id: Option<string>, hash: Option<string>)
    | Failed(message: Option<string>)

  /** `id ?? hash`, which is `undefined` when the reply carries neither. */
  type TxId = Option<string>

  /** `submitTx`'s result handling: an error result throws, otherwise the id, or else the hash. */
  function SubmitResult(reply: LedgerReply): (r: Outcome<TxId>)
    ensures reply.Failed? ==> r == Threw(reply.message)
    ensures reply.Sent? && reply.hasErrorResult ==> r == Threw(Some("Transaction failed"))
    ensures reply.Sent? && !reply.hasErrorResult ==>
              r.Returned? && (r.value.Some? <==> reply.id.Some? || reply.hash.Some?)
              && (reply.id.Some? ==> r.value == reply.id)
              && (reply.id.None? ==> r.value == reply.hash)
  {
    match reply
    case Failed(message) => Threw(message)
    case Sent(hasErrorResult, id, hash) =>
      if hasErrorResult then Threw(Some("Transaction failed"))
      else if id.Some? then Returned(id) else Returned(hash)
  }

  /** How the service is deployed: its environment and its contract ids. */
  datatype Deployment = Deployment(env: Environment, contracts: ContractsConfig)

  /**
   * A service call: the transaction it handed to the ledger oracle, if it got
   * past the contract-id check, and what it returned or threw. Handing over
   * includes fetching the source account, so a `Failed` reply may come from
   * that fetch, before anything was signed or sent, as well as from sending.
   */
  datatype ServiceRun<T> = ServiceRun(submitted: Option<Transaction>, result: Outcome<T>)

  /**
   * Check the contract id first; only then build and submit a transaction
   * carrying the memo, on the selected network and endpoint.
   */
  function Invoke(dep: Deployment, contract: ContractName, memo: Memo, reply: LedgerReply): (run: ServiceRun<TxId>)
    ensures run.submitted.Some? <==> Configured(dep.contracts, contract)
    ensures !Configured(dep.contracts, contract) ==> run.result == Threw(Some(MissingIdMessage(contract)))
    ensures run.submitted.Some? ==>
              run.submitted.value.memo == MemoText(memo)
              && run.submitted.value.passphrase == SelectNetwork(dep.env)
              && run.submitted.value.rpcUrl == RpcUrl(dep.env)
              && run.submitted.value.fee == "10000" && run.submitted.value.timeoutSeconds == 60
              && run.result == SubmitResult(reply)
  {
    match RequireContractId(dep.contracts, contract)
    case Threw(message) => ServiceRun(None, Threw(message))
    case Returned(_) =>
      var tx := Transaction(SelectNetwork(dep.env), RpcUrl(dep.env), "10000", 60, MemoText(memo));
      ServiceRun(Some(tx), SubmitResult(reply))
  }

  /**
   * `createWill`: gated on the will contract id; the memo records the owner
   * (as a template literal renders it), and neither the content hash nor the
   * beneficiaries reach the transaction.
   */
  function CreateWill(dep: Deployment, owner: JsVal, contentHash: JsVal, beneficiaries: seq<JsVal>,
                      reply: LedgerReply): (run: ServiceRun<TxId>)
    ensures run.submitted.Some? <==> Configured(dep.contracts, WillContractId)
    ensures run.submitted.Some? ==> run.submitted.value.memo == "will:create:" + ToJsString(owner)
    ensures run.submitted.Some? ==>
              run.result == SubmitResult(reply)
              && run.submitted.value.passphrase == SelectNetwork(dep.env)
              && run.submitted.value.rpcUrl == RpcUrl(dep.env)
    ensures !Configured(dep.contracts, WillContractId) ==>
              run.result == Threw(Some("Missing willContractId in config/contracts.json"))
  {
    Invoke(dep, WillContractId, CreateMemo(ToJsString(owner)), reply)
  }

  /** What `createWill` submits and returns does not depend on the content hash or the beneficiaries. */
  lemma CreateWillIgnoresPayload(dep: Deployment, owner: JsVal, h1: JsVal, b1: seq<JsVal>, h2: JsVal, b2: seq<JsVal>,
                                 reply: LedgerReply)
    ensures CreateWill(dep, owner, h1, b1, reply) == CreateWill(dep, owner, h2, b2, reply)
  {
  }

  /** `executeWill`: gated on the will contract id, memo `will:execute:<owner>`. */
  function ExecuteWill(dep: Deployment, owner: string, reply: LedgerReply): (run: ServiceRun<TxId>)
    ensures run.submitted.Some? <==> Configured(dep.contracts, WillContractId)
    ensures run.submitted.Some? ==> run.submitted.value.memo == "will:execute:" + owner
    ensures run.submitted.Some? ==>
              run.result == SubmitResult(reply)
              && run.submitted.value.passphrase == SelectNetwork(dep.env)
              && run.submitted.value.rpcUrl == RpcUrl(dep.env)
    ensures !Configured(dep.contracts, WillContractId) ==>
              run.result == Threw(Some("Missing willContractId in config/contracts.json"))
  {
    Invoke(dep, WillContractId, ExecuteMemo(owner), reply)
  }

  /** `mintToken`: gated on the token contract id, memo `token:mint:<to>:<amount>`. */
  function MintToken(dep: Deployment, to: string, amount: int, reply: LedgerReply): (run: ServiceRun<TxId>)
    ensures run.submitted.Some? <==> Configured(dep.contracts, TokenContractId)
    ensures run.submitted.Some? ==> run.submitted.value.memo == "token:mint:" + to + ":" + NumberText(amount)
    ensures run.submitted.Some? ==>
              run.result == SubmitResult(reply)
              && run.submitted.value.passphrase == SelectNetwork(dep.env)
              && run.submitted.value.rpcUrl == RpcUrl(dep.env)
    ensures !Configured(dep.contracts, TokenContractId) ==>
              run.result == Threw(Some("Missing tokenContractId in config/contracts.json"))
  {
    Invoke(dep, TokenContractId, MintMemo(to, amount), reply)
  }

  /** The record `getWill` returns. */
  datatype WillRecord = WillRecord(owner: string, contentHash: string, beneficiaries: seq<string>, executed: bool)

  /**
   * `getWill`: a stub. It reads neither the configuration nor the ledger and
   * describes every owner's will the same way.
   */
  function GetWill(owner: string): (r: WillRecord)
    ensures r.owner == owner
    ensures r.contentHash == "QmDummyHash" && r.beneficiaries == [] && !r.executed
  {
    WillRecord(owner, "QmDummyHash", [], false)
  }
}
