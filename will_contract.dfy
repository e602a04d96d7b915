/**
 * The Soroban will contract (contracts/will_contract/src/will.rs): an
 * owner-keyed table of wills in contract storage, with `create`, `get` and
 * `execute`.
 *
 * Every invocation is given two ways: as a pure function from the storage
 * before the call to a receipt and the storage after it (`CreateEffect`,
 * `Lookup`, `ExecuteEffect`), and as a method of the class `Will`, whose
 * `storage` field plays the contract's persistent storage and which is
 * proved to follow the function. Soroban's `require_auth` is the boolean
 * `authorized`; a panic is an `Aborted` receipt. The contract never writes
 * before it aborts, so an aborted invocation leaves storage as it was,
 * matching the host's roll-back.
 */
module WillContract {
  import opened Js

  /** A Soroban `Address`. */
  type Address = string

  datatype WillData = WillData(contentHash: string, beneficiaries: seq<Address>, executed: bool)

  /** The contract's storage: one entry per owner. */
  type Storage = map<Address, WillData>

  /** Why an invocation aborted: `require_auth` failed, or `panic!("Will already executed")`. */
  datatype Abort = AuthRequired | AlreadyExecuted

  datatype Receipt = Completed | Aborted(reason: Abort)

  /** What an invocation leaves behind: its receipt and the storage after it. */
  datatype Effect = Effect(receipt: Receipt, storage: Storage)

  function Lookup(s: Storage, owner: Address): Option<WillData> {
    if owner in s then Some(s[owner]) else None
  }

  /** A will exists for `owner` and has not been executed yet. */
  predicate Pending(s: Storage, owner: Address) {
    owner in s && !s[owner].executed
  }

  /**
   * `create`: with the owner's authorisation, store a fresh, unexecuted will
   * under the owner, replacing whatever was there; without it, abort.
   */
  function CreateEffect(s: Storage, owner: Address, contentHash: string, beneficiaries: seq<Address>,
                        authorized: bool): (e: Effect)
    ensures e.receipt.Completed? <==> authorized
    ensures !authorized ==> e.receipt == Aborted(AuthRequired) && e.storage == s
    ensures authorized ==> Lookup(e.storage, owner) == Some(WillData(contentHash, beneficiaries, false))
    ensures forall o :: o != owner ==> Lookup(e.storage, o) == Lookup(s, o)
    ensures e.storage.Keys == if authorized then s.Keys + {owner} else s.Keys
  {
    if !authorized then Effect(Aborted(AuthRequired), s)
    else Effect(Completed, s[owner := WillData(contentHash, beneficiaries, false)])
  }

  /**
   * `execute`: no authorisation and no time check. A pending will is marked
   * executed; an executed one aborts; an unknown owner is a silent no-op.
   */
  function ExecuteEffect(s: Storage, owner: Address): (e: Effect)
    ensures e.receipt.Aborted? <==> owner in s && s[owner].executed
    ensures e.receipt.Aborted? ==> e.receipt.reason == AlreadyExecuted && e.storage == s
    ensures owner !in s ==> e.receipt.Completed? && e.storage == s
    ensures Pending(s, owner) ==>
              Lookup(e.storage, owner) == Some(WillData(s[owner].contentHash, s[owner].beneficiaries, true))
    ensures forall o :: o != owner ==> Lookup(e.storage, o) == Lookup(s, o)
    ensures e.storage.Keys == s.Keys
    ensures !Pending(e.storage, owner)
  {
    if owner !in s then Effect(Completed, s)
    else if s[owner].executed then Effect(Aborted(AlreadyExecuted), s)
    else Effect(Completed, s[owner := s[owner].(executed := true)])
  }

  /** The contract instance; `storage` is its persistent storage. */
  class Will {
    var storage: Storage

    constructor ()
      ensures storage == map[]
    {
      storage := map[];
    }

    method Create(owner: Address, contentHash: string, beneficiaries: seq<Address>, authorized: bool)
      returns (r: Receipt)
      modifies this
      ensures Effect(r, storage) == CreateEffect(old(storage), owner, contentHash, beneficiaries, authorized)
    {
      if !authorized {
        return Aborted(AuthRequired);
      }
      var data := WillData(contentHash, beneficiaries, false);
      storage := storage[owner := data];
      r := Completed;
    }

    /** `get`: a read-only lookup. */
    method Get(owner: Address) returns (r: Option<WillData>)
      ensures r.Some? <==> owner in storage
      ensures r.Some? ==> r.value == storage[owner]
    {
      if owner in storage {
        r := Some(storage[owner]);
      } else {
        r := None;
      }
    }

    method Execute(owner: Address) returns (r: Receipt)
      modifies this
      ensures Effect(r, storage) == ExecuteEffect(old(storage), owner)
    {
      r := Completed;
      if owner in storage {
        var will := storage[owner];
        if will.executed {
          return Aborted(AlreadyExecuted);
        }
        will := will.(executed := true);
        storage := storage[owner := will];
      }
    }
  }

  // ---------------------------------------------------------------------------
  // Sequences of invocations
  // ---------------------------------------------------------------------------

  datatype Invocation =
    | CreateCall(owner: Address, contentHash: string, beneficiaries: seq<Address>, authorized: bool)
    | GetCall(owner: Address)
    | ExecuteCall(owner: Address)

  function Apply(s: Storage, call: Invocation): Storage {
    match call
    case CreateCall(owner, h, bs, auth) => CreateEffect(s, owner, h, bs, auth).storage
    case GetCall(_) => s
    case ExecuteCall(owner) => ExecuteEffect(s, owner).storage
  }

  /** The storage after running `calls` in order from `s`. */
  function Run(s: Storage, calls: seq<Invocation>): Storage
    decreases |calls|
  {
    if calls == [] then s else Run(Apply(s, calls[0]), calls[1..])
  }

  /** How many of `calls` are executions of `owner`'s will that mark it executed. */
  function Releases(s: Storage, calls: seq<Invocation>, owner: Address): nat
    decreases |calls|
  {
    if calls == [] then 0
    else
      (if calls[0] == ExecuteCall(owner) && Pending(s, owner) then 1 else 0)
      + Releases(Apply(s, calls[0]), calls[1..], owner)
  }

  /** How many of `calls` are authorised creations of a will for `owner`. */
  function Creations(calls: seq<Invocation>, owner: Address): nat
    decreases |calls|
  {
    if calls == [] then 0
    else
      (if calls[0].CreateCall? && calls[0].owner == owner && calls[0].authorized then 1 else 0)
      + Creations(calls[1..], owner)
  }

  /**
   * Execution is once-only per creation: over any sequence of invocations, a
   * will is released at most once for each authorised `create`, plus once if
   * it was already pending at the start; a will still pending at the end
   * uses up one of those allowances.
   */
  lemma {:induction false} ReleasedOncePerCreation(s: Storage, calls: seq<Invocation>, owner: Address)
    ensures Releases(s, calls, owner) + (if Pending(Run(s, calls), owner) then 1 else 0)
            <= Creations(calls, owner) + (if Pending(s, owner) then 1 else 0)
    decreases |calls|
  {
    if calls != [] {
      var s' := Apply(s, calls[0]);
      ReleasedOncePerCreation(s', calls[1..], owner);
      match calls[0]
      case CreateCall(o, h, bs, auth) =>
        assert Lookup(s', owner) == Lookup(s, owner) || (o == owner && auth);
      case GetCall(_) =>
      case ExecuteCall(o) =>
        assert Lookup(s', owner) == Lookup(s, owner) || (o == owner && Pending(s, owner));
    }
  }

  /** Without a new `create`, a will is released at most once, and never if it was not pending. */
  lemma ReleasedAtMostOnce(s: Storage, calls: seq<Invocation>, owner: Address)
    requires Creations(calls, owner) == 0
    ensures Releases(s, calls, owner) <= 1
    ensures !Pending(s, owner) ==> Releases(s, calls, owner) == 0
  {
    ReleasedOncePerCreation(s, calls, owner);
  }

  /** Invocations for other owners never touch an owner's entry. */
  lemma {:induction false} OtherOwnersUntouched(s: Storage, calls: seq<Invocation>, owner: Address)
    requires forall i :: 0 <= i < |calls| ==> calls[i].owner != owner
    ensures Lookup(Run(s, calls), owner) == Lookup(s, owner)
    decreases |calls|
  {
    if calls != [] {
      OtherOwnersUntouched(Apply(s, calls[0]), calls[1..], owner);
    }
  }

  /** Of two successive executions of an existing will, the second always aborts. */
  lemma SecondExecuteAborts(s: Storage, owner: Address)
    requires owner in s
    ensures ExecuteEffect(ExecuteEffect(s, owner).storage, owner).receipt == Aborted(AlreadyExecuted)
  {
  }

  /** `create` after an execution brings the will back to unexecuted, so it can be executed again. */
  lemma CreateResetsExecuted(s: Storage, owner: Address, contentHash: string, beneficiaries: seq<Address>)
    requires owner in s && s[owner].executed
    ensures var s' := CreateEffect(s, owner, contentHash, beneficiaries, true).storage;
            Pending(s', owner) && ExecuteEffect(s', owner).receipt == Completed
  {
  }
}
