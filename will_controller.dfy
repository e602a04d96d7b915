/**
 * The HTTP handlers for wills (backend/src/controllers/will.controller.ts).
 *
 * A handler checks its inputs, calls the ledger service at most once, and
 * answers with a status and a JSON body. Each is a function of the request
 * and of the outcome the service call would have; the result records whether
 * the service was called, and with what, beside the response. The end of the
 * file composes the handlers with the service of `Soroban`.
 */
module WillController {
  import opened Js
  import Soroban

  /** The fields `create` destructures from the JSON body; a missing one is `Undefined`. */
  datatype CreateBody = CreateBody(owner: JsVal, contentHash: JsVal, beneficiaries: JsVal)

  /** The arguments `create` passes to `createWill`. */
  datatype CreateArgs = CreateArgs(owner: JsVal, contentHash: JsVal, beneficiaries: seq<JsVal>)

  /** A JSON response body: `{error}`, `{ok, txId}`, or a record sent as it is. */
  datatype Body<T> = ErrorBody(error: string) | ReceiptBody(ok: bool, txId: T) | ValueBody(value: T)

  datatype Response<T> = Response(status: nat, body: Body<T>)

  /** A handled request: the service call made, if any, and the response sent. */
  datatype Handled<A, T> = Handled(call: Option<A>, response: Response<T>)

  const FieldsRequired := "owner, contentHash, beneficiaries required"
  const OwnerRequired := "owner param required"

  /** `owner` and `contentHash` truthy, and `beneficiaries` an array (possibly empty). */
  predicate ValidCreate(body: CreateBody) {
    Truthy(body.owner) && Truthy(body.contentHash) && body.beneficiaries.Arr?
  }

  /** `!owner` is false for a route parameter: present and non-empty. */
  predicate OwnerGiven(owner: Option<string>) {
    owner.Some? && owner.value != ""
  }

  /** `POST /will`. `service` is what `createWill` returns or throws when called. */
  function Create<T>(body: CreateBody, service: Outcome<T>): (h: Handled<CreateArgs, T>)
    ensures h.call.Some? <==> ValidCreate(body)
    ensures h.call.Some? ==>
              h.call.value == CreateArgs(body.owner, body.contentHash, body.beneficiaries.items)
    ensures h.response.status == 400 <==> !ValidCreate(body)
    ensures !ValidCreate(body) ==> h.response.body == ErrorBody(FieldsRequired)
    ensures h.response.status == 201 <==> ValidCreate(body) && service.Returned?
    ensures h.response.status == 201 ==> h.response.body == ReceiptBody(true, service.value)
    ensures h.response.status == 500 <==> ValidCreate(body) && service.Threw?
    ensures h.response.status == 500 ==> h.response.body == ErrorBody(MessageOr(service, "create failed"))
  {
    if !Truthy(body.owner) || !Truthy(body.contentHash) || !body.beneficiaries.Arr? then
      Handled(None, Response(400, ErrorBody(FieldsRequired)))
    else
      var call := Some(CreateArgs(body.owner, body.contentHash, body.beneficiaries.items));
      match service
      case Returned(txId) => Handled(call, Response(201, ReceiptBody(true, txId)))
      case Threw(_) => Handled(call, Response(500, ErrorBody(MessageOr(service, "create failed"))))
  }

  /** `GET /will/:owner`. `service` is what `getWill` returns or throws when called. */
  function Get<R>(owner: Option<string>, service: Outcome<R>): (h: Handled<string, R>)
    ensures h.call.Some? <==> OwnerGiven(owner)
    ensures h.call.Some? ==> h.call.value == owner.value
    ensures h.response.status == 400 <==> !OwnerGiven(owner)
    ensures !OwnerGiven(owner) ==> h.response.body == ErrorBody(OwnerRequired)
    ensures h.response.status == 200 <==> OwnerGiven(owner) && service.Returned?
    ensures h.response.status == 200 ==> h.response.body == ValueBody(service.value)
    ensures h.response.status == 500 <==> OwnerGiven(owner) && service.Threw?
    ensures h.response.status == 500 ==> h.response.body == ErrorBody(MessageOr(service, "get failed"))
  {
    if owner.None? || owner.value == "" then
      Handled(None, Response(400, ErrorBody(OwnerRequired)))
    else
      match service
      case Returned(record) => Handled(Some(owner.value), Response(200, ValueBody(record)))
      case Threw(_) => Handled(Some(owner.value), Response(500, ErrorBody(MessageOr(service, "get failed"))))
  }

  /** `POST /will/:owner/execute`. `service` is what `executeWill` returns or throws when called. */
  function Execute<T>(owner: Option<string>, service: Outcome<T>): (h: Handled<string, T>)
    ensures h.call.Some? <==> OwnerGiven(owner)
    ensures h.call.Some? ==> h.call.value == owner.value
    ensures h.response.status == 400 <==> !OwnerGiven(owner)
    ensures !OwnerGiven(owner) ==> h.response.body == ErrorBody(OwnerRequired)
    ensures h.response.status == 200 <==> OwnerGiven(owner) && service.Returned?
    ensures h.response.status == 200 ==> h.response.body == ReceiptBody(true, service.value)
    ensures h.response.status == 500 <==> OwnerGiven(owner) && service.Threw?
    ensures h.response.status == 500 ==> h.response.body == ErrorBody(MessageOr(service, "execute failed"))
  {
    if owner.None? || owner.value == "" then
      Handled(None, Response(400, ErrorBody(OwnerRequired)))
    else
      match service
      case Returned(txId) => Handled(Some(owner.value), Response(200, ReceiptBody(true, txId)))
      case Threw(_) => Handled(Some(owner.value), Response(500, ErrorBody(MessageOr(service, "execute failed"))))
  }

  /** An empty beneficiaries array passes validation; only `Array.isArray` is checked. */
  lemma EmptyBeneficiariesAccepted(owner: string, contentHash: string, service: Outcome<Soroban.TxId>)
    requires owner != "" && contentHash != ""
    ensures Create(CreateBody(Str(owner), Str(contentHash), Arr([])), service).call.Some?
  {
  }

  /** A thrown error with an empty message answers 500 with that empty message, not the fallback. */
  lemma EmptyMessageKept(owner: string)
    requires owner != ""
    ensures Execute<Soroban.TxId>(Some(owner), Threw(Some(""))).response == Response(500, ErrorBody(""))
  {
  }

  // ---------------------------------------------------------------------------
  // Handlers wired to the ledger service
  // ---------------------------------------------------------------------------

  /**
   * `POST /will` end to end: a rejected body reaches no ledger; an accepted
   * one is refused with the configuration error before any transaction exists
   * when the will contract id is not configured, and otherwise submits
   * `will:create:<owner>` and answers 201 with the ledger's id exactly when the
   * ledger accepted the transaction.
   */
  lemma PostWill(dep: Soroban.Deployment, body: CreateBody, reply: Soroban.LedgerReply)
    requires ValidCreate(body)
    ensures var run := Soroban.CreateWill(dep, body.owner, body.contentHash, body.beneficiaries.items, reply);
            var h := Create(body, run.result);
            (!Soroban.Configured(dep.contracts, Soroban.WillContractId) ==>
               run.submitted.None?
               && h.response == Response(500, ErrorBody("Missing willContractId in config/contracts.json")))
            && (Soroban.Configured(dep.contracts, Soroban.WillContractId) ==>
                  run.submitted.Some? && run.submitted.value.memo == "will:create:" + ToJsString(body.owner)
                  && (h.response.status == 201 <==> reply.Sent? && !reply.hasErrorResult))
  {
  }

  /** `GET /will/:owner` end to end: any non-empty owner gets 200 and the stub record for that owner. */
  lemma GetWillEndToEnd(owner: string)
    requires owner != ""
    ensures var h := Get(Some(owner), Returned(Soroban.GetWill(owner)));
            h.response.status == 200
            && h.response.body == ValueBody(Soroban.WillRecord(owner, "QmDummyHash", [], false))
  {
  }

  /**
   * `POST /will/:owner/execute` end to end: there is no unlock-time check, so
   * with the contract configured and the ledger accepting, any non-empty owner
   * gets 200 with the transaction id.
   */
  lemma ExecuteEndToEnd(dep: Soroban.Deployment, owner: string, id: string, hasHash: Option<string>)
    requires owner != "" && Soroban.Configured(dep.contracts, Soroban.WillContractId)
    ensures var run := Soroban.ExecuteWill(dep, owner, Soroban.Sent(false, Some(id), hasHash));
            var h := Execute(Some(owner), run.result);
            run.submitted.Some? && h.call == Some(owner)
            && h.response == Response(200, ReceiptBody(true, Some(id)))
  {
  }
}
