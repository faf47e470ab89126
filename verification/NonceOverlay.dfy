/** The nonce overlay: pending account changes kept above an unchanged base state. */
module NonceOverlay {
  import opened Common

  type PublicKey = nat

  datatype Account = Account(nonce: U64, profile: nat)

  datatype Key = AccountKey(public: PublicKey) | OtherKey(id: nat)

  datatype Value = AccountValue(account: Account) | OtherValue(payload: nat)

  datatype Status = Update(value: Value) | Delete

  datatype Change = Change(key: Key, status: Status)

  datatype Transaction = Transaction(public: PublicKey, nonce: U64)

  /** `Overflow` is the checked addition at the largest nonce, which stops the program. */
  datatype PrepareResult = Prepared | NonceMismatch(expected: nat, got: nat) | Overflow

  const DEFAULT_ACCOUNT := Account(0, 0)

  // ----- plain state

  function Lookup(state: map<Key, Value>, key: Key): Option<Value> {
    if key in state then Some(state[key]) else None
  }

  function ApplyChange(state: map<Key, Value>, c: Change): map<Key, Value> {
    if c.status.Update? then state[c.key := c.status.value] else state - {c.key}
  }

  function ApplyAll(state: map<Key, Value>, changes: seq<Change>): map<Key, Value>
    decreases |changes|
  {
    if changes == [] then state
    else ApplyChange(ApplyAll(state, changes[..|changes| - 1]), changes[|changes| - 1])
  }

  class Memory {
    var state: map<Key, Value>

    constructor ()
      ensures state == map[]
    {
      state := map[];
    }

    method Insert(key: Key, value: Value)
      modifies this
      ensures state == ApplyChange(old(state), Change(key, Update(value)))
    {
      state := state[key := value];
    }

    method Delete(key: Key)
      modifies this
      ensures state == ApplyChange(old(state), Change(key, Status.Delete))
    {
      state := state - {key};
    }

    method Apply(changes: seq<Change>)
      modifies this
      ensures state == ApplyAll(old(state), changes)
    {
      for i := 0 to |changes|
        invariant state == ApplyAll(old(state), changes[..i])
      {
        assert changes[..i + 1][..i] == changes[..i];
        match changes[i].status
        case Update(value) => Insert(changes[i].key, value);
        case Delete => Delete(changes[i].key);
      }
      assert changes[..|changes|] == changes;
    }
  }

  // ----- overlay

  function Read(base: map<Key, Value>, pending: map<Key, Status>, key: Key): Option<Value> {
    if key in pending then (if pending[key].Update? then Some(pending[key].value) else None)
    else Lookup(base, key)
  }

  function AccountIn(value: Option<Value>): Account {
    if value.Some? && value.value.AccountValue? then value.value.account else DEFAULT_ACCOUNT
  }

  function Prepare(base: map<Key, Value>, pending: map<Key, Status>, tx: Transaction)
    : (map<Key, Status>, PrepareResult)
  {
    var account := AccountIn(Read(base, pending, AccountKey(tx.public)));
    if account.nonce != tx.nonce then (pending, NonceMismatch(account.nonce, tx.nonce))
    else if account.nonce == U64_MAX then (pending, Overflow)
    else (pending[AccountKey(tx.public) := Update(AccountValue(account.(nonce := account.nonce + 1)))], Prepared)
  }

  class Noncer {
    const base: map<Key, Value>
    var pending: map<Key, Status>

    constructor (base: map<Key, Value>)
      ensures this.base == base && pending == map[]
    {
      this.base := base;
      pending := map[];
    }

    method Get(key: Key) returns (r: Option<Value>)
      ensures r == Read(base, pending, key)
    {
      if key in pending {
        match pending[key]
        case Update(value) => r := Some(value);
        case Delete => r := None;
      } else {
        r := Lookup(base, key);
      }
    }

    method Insert(key: Key, value: Value)
      modifies this
      ensures pending == old(pending)[key := Update(value)]
    {
      pending := pending[key := Update(value)];
    }

    method Delete(key: Key)
      modifies this
      ensures pending == old(pending)[key := Status.Delete]
    {
      pending := pending[key := Status.Delete];
    }

    method PrepareTransaction(tx: Transaction) returns (r: PrepareResult)
      modifies this
      ensures (pending, r) == Prepare(base, old(pending), tx)
    {
      var value := Get(AccountKey(tx.public));
      var account := AccountIn(value);
      if account.nonce != tx.nonce {
        return NonceMismatch(account.nonce, tx.nonce);
      }
      if account.nonce == U64_MAX {
        return Overflow;
      }
      account := account.(nonce := account.nonce + 1);
      Insert(AccountKey(tx.public), AccountValue(account));
      return Prepared;
    }
  }

  // ----- a whole list of transactions

  function PendingAfter(base: map<Key, Value>, txs: seq<Transaction>): map<Key, Status>
    decreases |txs|
  {
    if txs == [] then map[]
    else Prepare(base, PendingAfter(base, txs[..|txs| - 1]), txs[|txs| - 1]).0
  }

  function ResultOf(base: map<Key, Value>, txs: seq<Transaction>, i: nat): PrepareResult
    requires i < |txs|
  {
    Prepare(base, PendingAfter(base, txs[..i]), txs[i]).1
  }

  /** How many of the first n transactions of this key were accepted. */
  function Accepted(base: map<Key, Value>, txs: seq<Transaction>, n: nat, public: PublicKey): nat
    requires n <= |txs|
  {
    if n == 0 then 0
    else Accepted(base, txs, n - 1, public) +
         (if txs[n - 1].public == public && ResultOf(base, txs, n - 1).Prepared? then 1 else 0)
  }

  function BaseNonce(base: map<Key, Value>, public: PublicKey): U64 {
    AccountIn(Lookup(base, AccountKey(public))).nonce
  }

  lemma {:induction false} OverlayNonce(base: map<Key, Value>, txs: seq<Transaction>, n: nat, public: PublicKey)
    requires n <= |txs|
    ensures
      var account := AccountIn(Read(base, PendingAfter(base, txs[..n]), AccountKey(public)));
      && account.nonce == BaseNonce(base, public) + Accepted(base, txs, n, public)
      && account.profile == AccountIn(Lookup(base, AccountKey(public))).profile
  {
    if n > 0 {
      OverlayNonce(base, txs, n - 1, public);
      assert txs[..n][..n - 1] == txs[..n - 1];
    }
  }

  /** Over any transaction list, a transaction is accepted exactly when its nonce is the base nonce
      plus the number already accepted for its key (and that is not the last nonce, where the
      increment overflows); otherwise the reported expectation is that number. */
  lemma NonceAcceptance(base: map<Key, Value>, txs: seq<Transaction>, i: nat)
    requires i < |txs|
    ensures
      var expected := BaseNonce(base, txs[i].public) + Accepted(base, txs, i, txs[i].public);
      ResultOf(base, txs, i) ==
      if txs[i].nonce != expected then NonceMismatch(expected, txs[i].nonce)
      else if expected == U64_MAX then Overflow
      else Prepared
  {
    OverlayNonce(base, txs, i, txs[i].public);
  }

  /** An account that is not in the base starts at nonce 0: the first transaction of its key is accepted exactly if
      that is its nonce, and the account then reads nonce 1. */
  lemma FirstNonce(base: map<Key, Value>, txs: seq<Transaction>, i: nat)
    requires i < |txs| && AccountKey(txs[i].public) !in base
    requires forall j :: 0 <= j < i ==> txs[j].public != txs[i].public
    ensures ResultOf(base, txs, i) == if txs[i].nonce == 0 then Prepared else NonceMismatch(0, txs[i].nonce)
    ensures txs[i].nonce == 0 ==>
              var pending := PendingAfter(base, txs[..i + 1]);
              AccountKey(txs[i].public) in pending && pending[AccountKey(txs[i].public)].Update?
              && pending[AccountKey(txs[i].public)].value.AccountValue?
              && pending[AccountKey(txs[i].public)].value.account.nonce == 1
  {
    NoneAccepted(base, txs, i, txs[i].public);
    NonceAcceptance(base, txs, i);
    assert txs[..i + 1][..i] == txs[..i];
  }

  lemma {:induction false} NoneAccepted(base: map<Key, Value>, txs: seq<Transaction>, n: nat, public: PublicKey)
    requires n <= |txs| && forall j :: 0 <= j < n ==> txs[j].public != public
    ensures Accepted(base, txs, n, public) == 0
  {
    if n > 0 {
      NoneAccepted(base, txs, n - 1, public);
    }
  }

  // ----- committing the overlay

  /** The pending map as the list of changes handed to `apply`. */
  ghost predicate Lists(changes: seq<Change>, pending: map<Key, Status>) {
    && (forall i, j :: 0 <= i < j < |changes| ==> changes[i].key != changes[j].key)
    && (forall c :: c in changes ==> c.key in pending && pending[c.key] == c.status)
    && (forall k :: k in pending ==> Change(k, pending[k]) in changes)
  }

  lemma {:induction false} AppliedLookup(base: map<Key, Value>, changes: seq<Change>, pending: map<Key, Status>,
                                         key: Key)
    requires Lists(changes, pending)
    ensures Lookup(ApplyAll(base, changes), key) == Read(base, pending, key)
    decreases |changes|
  {
    if changes != [] {
      ListsInit(changes, pending);
      AppliedLookup(base, changes[..|changes| - 1], pending - {changes[|changes| - 1].key}, key);
    }
  }

  /** Without its last change, the list is that of the pending map without its key. */
  lemma ListsInit(changes: seq<Change>, pending: map<Key, Status>)
    requires changes != [] && Lists(changes, pending)
    ensures
      var last := changes[|changes| - 1];
      last.key in pending && pending[last.key] == last.status &&
      Lists(changes[..|changes| - 1], pending - {last.key})
  {
    var last := changes[|changes| - 1];
    var init := changes[..|changes| - 1];
    var rest := pending - {last.key};
    assert last in changes;
    forall k | k in rest ensures Change(k, rest[k]) in init {
      var i :| 0 <= i < |changes| && changes[i] == Change(k, pending[k]);
      assert init[i] == changes[i];
    }
  }

  /** Reading through the overlay equals reading the base after applying the pending changes, in
      whatever order the map lists them. */
  lemma OverlayEqualsApplied(base: map<Key, Value>, changes: seq<Change>, pending: map<Key, Status>)
    requires Lists(changes, pending)
    ensures forall key :: Lookup(ApplyAll(base, changes), key) == Read(base, pending, key)
  {
    forall key ensures Lookup(ApplyAll(base, changes), key) == Read(base, pending, key) {
      AppliedLookup(base, changes, pending, key);
    }
  }

  /** The overlay left by a sequence of inserts and deletes. */
  function Overlay(ops: seq<Change>): map<Key, Status>
    decreases |ops|
  {
    if ops == [] then map[]
    else Overlay(ops[..|ops| - 1])[ops[|ops| - 1].key := ops[|ops| - 1].status]
  }

  lemma {:induction false} OverlayRead(base: map<Key, Value>, ops: seq<Change>, key: Key)
    ensures Read(base, Overlay(ops), key) == Lookup(ApplyAll(base, ops), key)
    decreases |ops|
  {
    if ops != [] {
      OverlayRead(base, ops[..|ops| - 1], key);
    }
  }

  /** Buffering any inserts and deletes in the overlay and applying the collapsed pending map gives
      the state that performing them one by one on the base would have given. */
  lemma CommitEqualsDirect(base: map<Key, Value>, ops: seq<Change>, changes: seq<Change>)
    requires Lists(changes, Overlay(ops))
    ensures ApplyAll(base, changes) == ApplyAll(base, ops)
  {
    var a, b := ApplyAll(base, changes), ApplyAll(base, ops);
    forall key ensures Lookup(a, key) == Lookup(b, key) {
      AppliedLookup(base, changes, Overlay(ops), key);
      OverlayRead(base, ops, key);
    }
    assert forall key :: key in a <==> Lookup(a, key).Some?;
    assert forall key :: key in b <==> Lookup(b, key).Some?;
    forall key | key in a ensures key in b && a[key] == b[key] {
      assert Lookup(a, key) == Lookup(b, key);
    }
  }
}
