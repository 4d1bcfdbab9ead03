/** What the backend's operations guarantee together: the ledger explains every
    balance, a transaction is settled at most once, the settlement of a fresh
    transaction has exactly its intended balance effect. */
module LedgerProperties {
  import opened Types
  import opened Lookup
  import opened Ledger

  // ---------------------------------------------------------------- accounting

  lemma HoldingsPrepend(t: Transaction, txns: seq<Transaction>, uid: string)
    ensures Holdings([t] + txns, uid) == (if t.userId == uid then Effect(t) else 0.0) + Holdings(txns, uid)
  {
  }

  /** Replacing one transaction by another of the same owner changes that owner's
      holdings by the difference of their effects and nobody else's. */
  lemma {:induction false} HoldingsUpdate(txns: seq<Transaction>, k: nat, t: Transaction, uid: string)
    requires k < |txns| && t.userId == txns[k].userId
    ensures Holdings(txns[k := t], uid)
         == Holdings(txns, uid) + (if t.userId == uid then Effect(t) - Effect(txns[k]) else 0.0)
    decreases k
  {
    if k == 0 {
      assert txns[k := t][1..] == txns[1..];
    } else {
      HoldingsUpdate(txns[1..], k - 1, t, uid);
      assert txns[k := t][1..] == txns[1..][k - 1 := t];
    }
  }

  /** A user who owns no transaction holds nothing according to the ledger. */
  lemma {:induction false} HoldingsOfNonOwner(txns: seq<Transaction>, uid: string)
    requires forall k :: 0 <= k < |txns| ==> txns[k].userId != uid
    ensures Holdings(txns, uid) == 0.0
    decreases |txns|
  {
    if txns != [] {
      HoldingsOfNonOwner(txns[1..], uid);
    }
  }

  /** A user's holdings are the net effect of the history getUserTransactions shows. */
  lemma {:induction false} HoldingsIsNetOfHistory(txns: seq<Transaction>, uid: string)
    ensures Holdings(txns, uid) == NetGrams(TransactionsOf(txns, uid))
    decreases |txns|
  {
    if txns != [] {
      HoldingsIsNetOfHistory(txns[1..], uid);
      var rest := TransactionsOf(txns[1..], uid);
      if txns[0].userId == uid {
        assert ([txns[0]] + rest)[1..] == rest;
      } else {
        assert [] + rest == rest;
      }
    }
  }

  /** The positions of `r` in `s`, shifted by one, are its positions in `[x] + s`;
      with `x` picked at position 0 they pick `[x] + r`. */
  lemma PickedAfterPrepend<T>(x: T, r: seq<T>, s: seq<T>, idx: seq<nat>)
    requires PickedInOrder(r, s, idx)
    ensures var shifted := seq(|idx|, j requires 0 <= j < |idx| => idx[j] + 1);
            PickedInOrder(r, [x] + s, shifted) && PickedInOrder([x] + r, [x] + s, [0] + shifted)
  {
  }

  /** Putting `x` in front of `s` keeps `r` a subsequence, with or without `x`
      put in front of `r` too. */
  lemma SubsequencePrepend<T>(x: T, r: seq<T>, s: seq<T>, keep: bool)
    requires Subsequence(r, s)
    ensures Subsequence((if keep then [x] else []) + r, [x] + s)
  {
    var idx :| PickedInOrder(r, s, idx);
    PickedAfterPrepend(x, r, s, idx);
    var shifted := seq(|idx|, j requires 0 <= j < |idx| => idx[j] + 1);
    if keep {
      assert PickedInOrder((if keep then [x] else []) + r, [x] + s, [0] + shifted);
    } else {
      assert (if keep then [x] else []) + r == r;
      assert PickedInOrder((if keep then [x] else []) + r, [x] + s, shifted);
    }
  }

  /** getUserTransactions keeps the ledger order (newest first): the user's
      transactions form a subsequence of the ledger. */
  lemma {:induction false} TransactionsOfInLedgerOrder(txns: seq<Transaction>, uid: string)
    ensures Subsequence(TransactionsOf(txns, uid), txns)
    decreases |txns|
  {
    if txns == [] {
      assert PickedInOrder(TransactionsOf(txns, uid), txns, []);
    } else {
      TransactionsOfInLedgerOrder(txns[1..], uid);
      SubsequencePrepend(txns[0], TransactionsOf(txns[1..], uid), txns[1..], txns[0].userId == uid);
      assert [txns[0]] + txns[1..] == txns;
    }
  }

  /** In a consistent store every balance is the net effect of its owner's own
      transaction history. */
  lemma BalanceIsNetOfHistory(s: Store, i: nat)
    requires Consistent(s) && i < |s.users|
    ensures s.users[i].walletBalanceGold == NetGrams(TransactionsOf(s.txns, s.users[i].id))
  {
    HoldingsIsNetOfHistory(s.txns, s.users[i].id);
  }

  // ---------------------------------------------------------------- the invariant

  /** Changing users only in fields other than id keeps every transaction's owner registered. */
  lemma OwnersStayRegistered(s: Store, i: nat, u: User)
    requires i < |s.users| && u.id == s.users[i].id
    requires forall k :: 0 <= k < |s.txns| ==> FindIndex(s.users, IdOf, s.txns[k].userId).Some?
    ensures forall k :: 0 <= k < |s.txns| ==> FindIndex(s.users[i := u], IdOf, s.txns[k].userId).Some?
  {
    forall k | 0 <= k < |s.txns|
      ensures FindIndex(s.users[i := u], IdOf, s.txns[k].userId).Some?
    {
      FindIndexAfterUpdate(s.users, IdOf, s.txns[k].userId, i, u);
    }
  }

  lemma RegisterPreservesConsistent(s: Store, name: string, email: string, phone: string, newId: string, now: string)
    requires Consistent(s)
    requires NoneHas(s.users, IdOf, newId)
    ensures Consistent(Register(s, name, email, phone, newId, now).store)
  {
    var out := Register(s, name, email, phone, newId, now);
    if out.result.Success? {
      var s' := out.store;
      var n := |s.users|;
      assert s'.users[n].id == newId;
      forall k | 0 <= k < |s.txns| ensures s.txns[k].userId != newId {
        var r := FindIndex(s.users, IdOf, s.txns[k].userId).value;
        assert s.users[r].id == s.txns[k].userId;
      }
      HoldingsOfNonOwner(s.txns, newId);
      forall k | 0 <= k < |s'.txns| ensures FindIndex(s'.users, IdOf, s'.txns[k].userId).Some? {
        var r := FindIndex(s.users, IdOf, s.txns[k].userId).value;
        FindIndexIsFirst(s'.users, IdOf, s.txns[k].userId, r);
      }
    }
  }

  lemma UpdateUserPreservesConsistent(s: Store, userId: string, name: Option<string>, phone: Option<string>)
    requires Consistent(s)
    ensures Consistent(UpdateUser(s, userId, name, phone).store)
  {
    var out := UpdateUser(s, userId, name, phone);
    if out.result.Success? {
      var i := FindIndex(s.users, IdOf, userId).value;
      OwnersStayRegistered(s, i, out.result.data);
    }
  }

  lemma CreatePreservesConsistent(s: Store, userId: string, amountBDT: real, method_: PaymentMethod,
                                  txType: TransactionType, screenshot: Option<string>,
                                  userPaymentDetails: Option<string>, newId: string, now: string)
    requires Consistent(s)
    ensures Consistent(CreateTransaction(s, userId, amountBDT, method_, txType, screenshot,
                                         userPaymentDetails, newId, now).store)
  {
    var out := CreateTransaction(s, userId, amountBDT, method_, txType, screenshot, userPaymentDetails, newId, now);
    if out.result.Success? {
      var s', t := out.store, out.result.data;
      var i := FindIndex(s.users, IdOf, userId).value;
      forall j | 0 <= j < |s'.users|
        ensures s'.users[j].walletBalanceGold == Holdings(s'.txns, s'.users[j].id)
      {
        HoldingsPrepend(t, s.txns, s.users[j].id);
        if j != i {
          assert s.users[j].id != s.users[i].id;
        }
      }
      OwnersStayRegistered(s, i, s'.users[i]);
      forall k | 0 <= k < |s'.txns| ensures FindIndex(s'.users, IdOf, s'.txns[k].userId).Some? {
        if k == 0 {
          FindIndexAfterUpdate(s.users, IdOf, userId, i, s'.users[i]);
        } else {
          assert s'.txns[k] == s.txns[k - 1];
        }
      }
    }
  }

  /** Replacing transaction `k` by `t` and moving its owner's balance by the change
      in the transaction's effect keeps the store consistent. */
  lemma ReplaceKeepsConsistent(s: Store, k: nat, i: nat, t: Transaction, s': Store)
    requires Consistent(s)
    requires k < |s.txns| && IsFirst(s.users, IdOf, s.txns[k].userId, i)
    requires t.userId == s.txns[k].userId
    requires s' == s.(users := s.users[i := s.users[i].(walletBalanceGold :=
                        s.users[i].walletBalanceGold + (Effect(t) - Effect(s.txns[k])))],
                      txns := s.txns[k := t])
    ensures Consistent(s')
  {
    var u := s'.users[i];
    forall j | 0 <= j < |s'.users|
      ensures s'.users[j].walletBalanceGold == Holdings(s'.txns, s'.users[j].id)
    {
      HoldingsUpdate(s.txns, k, t, s.users[j].id);
      if j != i {
        assert s.users[j].id != s.users[i].id;
      }
    }
    OwnersStayRegistered(s, i, u);
    assert forall m :: 0 <= m < |s'.txns| ==> s'.txns[m].userId == s.txns[m].userId;
  }

  lemma ProcessPreservesConsistent(s: Store, txnId: string, action: Action)
    requires Consistent(s)
    ensures Consistent(ProcessTransaction(s, txnId, action).store)
  {
    var out := ProcessTransaction(s, txnId, action);
    if out.result.Success? {
      var k := FindIndex(s.txns, TxnIdOf, txnId).value;
      var t := s.txns[k];
      var i := FindIndex(s.users, IdOf, t.userId).value;
      var t' := t.(status := Outcome(action));
      var delta := Settlement(t, action);
      var u := s.users[i].(walletBalanceGold := s.users[i].walletBalanceGold + (Effect(t') - Effect(t)));
      assert s.users[i := u] == out.store.users by {
        if delta == 0.0 {
          assert u == s.users[i];
        }
      }
      ReplaceKeepsConsistent(s, k, i, t', out.store);
    }
  }

  /** The "owner not found" failure of processTransaction cannot happen in a
      consistent store. */
  lemma ProcessNeverOrphaned(s: Store, txnId: string, action: Action)
    requires Consistent(s)
    ensures ProcessTransaction(s, txnId, action).result != Failure(OwnerNotFound)
  {
  }

  // ---------------------------------------------------------------- settlement

  /** A second approve or reject of the same id is refused and changes nothing:
      every transaction is settled at most once. */
  lemma SettledAtMostOnce(s: Store, txnId: string, first: Action, second: Action)
    requires ProcessTransaction(s, txnId, first).result.Success?
    ensures var s1 := ProcessTransaction(s, txnId, first).store;
            ProcessTransaction(s1, txnId, second) == Step(s1, Failure(TransactionNotPending))
  {
    var k := FindIndex(s.txns, TxnIdOf, txnId).value;
    var s1 := ProcessTransaction(s, txnId, first).store;
    FindIndexAfterUpdate(s.txns, TxnIdOf, txnId, k, s1.txns[k]);
  }

  /** Settling the transaction at the head of the ledger. */
  lemma SettleHead(s: Store, action: Action, i: nat)
    requires |s.txns| > 0 && s.txns[0].status == PENDING
    requires IsFirst(s.users, IdOf, s.txns[0].userId, i)
    ensures
      var t := s.txns[0];
      var t' := t.(status := Outcome(action));
      var u := s.users[i].(walletBalanceGold := s.users[i].walletBalanceGold + Settlement(t, action));
      ProcessTransaction(s, t.id, action) == Step(s.(users := s.users[i := u], txns := [t'] + s.txns[1..]), Success(t'))
  {
  }

  /** A successful createTransaction, as one store update: the owner's balance
      moves by the new transaction's effect and the transaction is put in front. */
  lemma CreatedStore(s: Store, userId: string, amountBDT: real, method_: PaymentMethod,
                     txType: TransactionType, screenshot: Option<string>,
                     userPaymentDetails: Option<string>, newId: string, now: string)
    requires s.price.pricePerGram > 0.0
    requires CreateTransaction(s, userId, amountBDT, method_, txType, screenshot,
                               userPaymentDetails, newId, now).result.Success?
    ensures
      var c := CreateTransaction(s, userId, amountBDT, method_, txType, screenshot, userPaymentDetails, newId, now);
      var t := c.result.data;
      && FindIndex(s.users, IdOf, userId).Some?
      && var i := FindIndex(s.users, IdOf, userId).value;
      && t.status == PENDING && t.id == newId && t.userId == userId
      && c.store.txns == [t] + s.txns
      && c.store.users == s.users[i := s.users[i].(walletBalanceGold := s.users[i].walletBalanceGold + Effect(t))]
  {
  }

  /** Creating a transaction and then settling it moves its owner's balance by
      exactly the settled transaction's effect: +grams for an approved BUY, -grams
      for an approved SELL, nothing for a rejected one. The ledger gains exactly
      the settled transaction at its head. */
  lemma CreateThenSettle(s: Store, userId: string, amountBDT: real, method_: PaymentMethod,
                         txType: TransactionType, screenshot: Option<string>,
                         userPaymentDetails: Option<string>, newId: string, now: string, action: Action)
    requires s.price.pricePerGram > 0.0
    requires CreateTransaction(s, userId, amountBDT, method_, txType, screenshot,
                               userPaymentDetails, newId, now).result.Success?
    ensures
      var c := CreateTransaction(s, userId, amountBDT, method_, txType, screenshot, userPaymentDetails, newId, now);
      var p := ProcessTransaction(c.store, newId, action);
      && p.result.Success?
      && p.result.data == c.result.data.(status := Outcome(action))
      && p.store.txns == [p.result.data] + s.txns
      && FindIndex(s.users, IdOf, userId).Some?
      && var i := FindIndex(s.users, IdOf, userId).value;
         BalanceSetAt(s.users, p.store.users, i, s.users[i].walletBalanceGold + Effect(p.result.data))
  {
    CreatedStore(s, userId, amountBDT, method_, txType, screenshot, userPaymentDetails, newId, now);
    var c := CreateTransaction(s, userId, amountBDT, method_, txType, screenshot, userPaymentDetails, newId, now);
    var i := FindIndex(s.users, IdOf, userId).value;
    var t := c.result.data;
    FindIndexAfterUpdate(s.users, IdOf, userId, i, c.store.users[i]);
    SettleHead(c.store, action, i);
    assert c.store.txns[1..] == s.txns;
  }

  /** A SELL followed by its rejection leaves every balance as it was. */
  lemma SellThenRejectRestores(s: Store, userId: string, amountBDT: real, method_: PaymentMethod,
                               screenshot: Option<string>, userPaymentDetails: Option<string>,
                               newId: string, now: string)
    requires s.price.pricePerGram > 0.0
    requires CreateTransaction(s, userId, amountBDT, method_, SELL, screenshot,
                               userPaymentDetails, newId, now).result.Success?
    ensures
      var c := CreateTransaction(s, userId, amountBDT, method_, SELL, screenshot, userPaymentDetails, newId, now);
      var p := ProcessTransaction(c.store, newId, REJECT);
      p.result.Success? && p.result.data.status == FAILED && p.store.users == s.users
  {
    CreateThenSettle(s, userId, amountBDT, method_, SELL, screenshot, userPaymentDetails, newId, now, REJECT);
    var c := CreateTransaction(s, userId, amountBDT, method_, SELL, screenshot, userPaymentDetails, newId, now);
    var p := ProcessTransaction(c.store, newId, REJECT);
    var i := FindIndex(s.users, IdOf, userId).value;
    assert s.users[i].(walletBalanceGold := s.users[i].walletBalanceGold) == s.users[i];
  }

  // ---------------------------------------------------------------- non-negative balances

  /** register adds a user with an empty wallet and leaves the ledger alone. */
  lemma RegisterPreservesSolvent(s: Store, name: string, email: string, phone: string, newId: string, now: string)
    requires Solvent(s) && NonNegativeGrams(s)
    ensures var s' := Register(s, name, email, phone, newId, now).store;
            Solvent(s') && NonNegativeGrams(s')
  {
  }

  /** updateUser changes no balance and no transaction. */
  lemma UpdateUserPreservesSolvent(s: Store, userId: string, name: Option<string>, phone: Option<string>)
    requires Solvent(s) && NonNegativeGrams(s)
    ensures var s' := UpdateUser(s, userId, name, phone).store;
            Solvent(s') && NonNegativeGrams(s')
  {
  }

  /** createTransaction never makes a balance negative: a SELL only debits what
      the seller holds. */
  lemma CreatePreservesSolvent(s: Store, userId: string, amountBDT: real, method_: PaymentMethod,
                               txType: TransactionType, screenshot: Option<string>,
                               userPaymentDetails: Option<string>, newId: string, now: string)
    requires s.price.pricePerGram > 0.0 && Solvent(s)
    ensures Solvent(CreateTransaction(s, userId, amountBDT, method_, txType, screenshot,
                                      userPaymentDetails, newId, now).store)
  {
  }

  /** A non-negative amount yields a non-negative number of grams. */
  lemma CreateKeepsGramsNonNegative(s: Store, userId: string, amountBDT: real, method_: PaymentMethod,
                                    txType: TransactionType, screenshot: Option<string>,
                                    userPaymentDetails: Option<string>, newId: string, now: string)
    requires s.price.pricePerGram > 0.0 && NonNegativeGrams(s) && amountBDT >= 0.0
    ensures NonNegativeGrams(CreateTransaction(s, userId, amountBDT, method_, txType, screenshot,
                                               userPaymentDetails, newId, now).store)
  {
  }

  /** Settlement only ever adds grams, so it keeps balances non-negative as long
      as no transaction carries negative grams. */
  lemma ProcessPreservesSolvent(s: Store, txnId: string, action: Action)
    requires Solvent(s) && NonNegativeGrams(s)
    ensures var s' := ProcessTransaction(s, txnId, action).store;
            Solvent(s') && NonNegativeGrams(s')
  {
  }

  /** The backend accepts a negative amount; with one, a refund can overdraw a
      wallet: SELL -9500 BDT (credits 1 g), SELL 9500 BDT (debits 1 g), then
      REJECT the first (takes 1 g back) leaves -1 g. */
  lemma NegativeAmountOverdraws(now: string)
    ensures
      var s0 := Initial(now);
      var c1 := CreateTransaction(s0, ADMIN_ID, -9500.0, BKASH, SELL, None, Some("x"), "txn-1", now);
      var c2 := CreateTransaction(c1.store, ADMIN_ID, 9500.0, BKASH, SELL, None, Some("x"), "txn-2", now);
      var p := ProcessTransaction(c2.store, "txn-1", REJECT);
      && Solvent(s0) && c1.result.Success? && c2.result.Success? && p.result.Success?
      && p.store.users[0].walletBalanceGold == -1.0 && !Solvent(p.store)
  {
    var s0 := Initial(now);
    var c1 := CreateTransaction(s0, ADMIN_ID, -9500.0, BKASH, SELL, None, Some("x"), "txn-1", now);
    assert FindIndex(s0.users, IdOf, ADMIN_ID) == Some(0);
    assert c1.store.users[0].walletBalanceGold == 1.0;
    var c2 := CreateTransaction(c1.store, ADMIN_ID, 9500.0, BKASH, SELL, None, Some("x"), "txn-2", now);
    assert FindIndex(c1.store.users, IdOf, ADMIN_ID) == Some(0);
    assert c2.store.users[0].walletBalanceGold == 0.0;
    assert "txn-2"[4] != "txn-1"[4];
    assert FindIndex(c2.store.txns, TxnIdOf, "txn-1") == Some(1);
    assert FindIndex(c2.store.users, IdOf, ADMIN_ID) == Some(0);
  }

  // ---------------------------------------------------------------- accounts and configuration

  /** A freshly registered user can log in with their email and is the current user. */
  lemma RegisterThenLogin(s: Store, name: string, email: string, phone: string, newId: string, now: string)
    requires NoneHas(s.users, IdOf, newId)
    requires Register(s, name, email, phone, newId, now).result.Success?
    ensures var r := Register(s, name, email, phone, newId, now);
            && Login(r.store, email) == Step(r.store, Success(r.result.data))
            && CurrentUser(r.store) == Some(r.result.data)
  {
    var r := Register(s, name, email, phone, newId, now);
    FindIndexIsFirst(r.store.users, EmailOf, email, |s.users|);
    FindIndexIsFirst(r.store.users, IdOf, newId, |s.users|);
  }

  /** With an entry for every method, updatePaymentMethod always succeeds and keeps
      an entry for every method. */
  lemma PaymentMethodsStayListed(s: Store, name: PaymentMethod, details: string)
    requires AllMethodsListed(s.paymentMethods)
    ensures var out := UpdatePaymentMethod(s, name, details);
            out.result.Success? && AllMethodsListed(out.store.paymentMethods)
  {
    var ms := s.paymentMethods;
    var i := FindIndex(ms, MethodNameOf, name).value;
    var ms' := ms[i := ms[i].(details := details)];
    forall m: PaymentMethod ensures FindIndex(ms', MethodNameOf, m).Some? {
      FindIndexAfterUpdate(ms, MethodNameOf, m, i, ms'[i]);
    }
  }
}
