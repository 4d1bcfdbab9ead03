/** MockBackendService (services/mockBackend.ts): the four collections and the
    session pointer are fields that the methods update in place, one atomic step
    per call. Every method is proved to perform exactly the step the matching
    function of module Ledger describes, and to keep the store invariant. */
module MockBackend {
  import opened Types
  import opened Lookup
  import opened Ledger
  import opened LedgerProperties

  class MockBackendService {
    var users: seq<User>
    var goldPrice: GoldPrice
    var paymentMethods: seq<PaymentMethodInfo>
    var transactions: seq<Transaction>   // newest first
    var session: Option<string>          // id of the logged-in user

    /** The fields as one value. */
    function State(): Store
      reads this
    {
      Store(users, goldPrice, paymentMethods, transactions, session)
    }

    ghost predicate Valid()
      reads this
    {
      Consistent(State())
    }

    /** new MockBackendService() with init() on empty storage. */
    constructor (now: string)
      ensures Valid() && State() == Initial(now)
    {
      users := [DefaultAdmin(now)];
      goldPrice := InitialPrice(now);
      paymentMethods := DEFAULT_PAYMENT_METHODS;
      transactions := [];
      session := None;
    }

    // ------------------------------------------------------------ auth

    method Login(email: string) returns (r: Result<User>)
      requires Valid()
      modifies this
      ensures Valid()
      ensures Step(State(), r) == Ledger.Login(old(State()), email)
    {
      var index := FindIndex(users, EmailOf, email);
      if index.None? {
        return Failure(UserNotFound);
      }
      var user := users[index.value];
      session := Some(user.id);
      return Success(user);
    }

    /** `newId` stands for `user-${Date.now()}`, assumed unused; `now` for the clock. */
    method Register(name: string, email: string, phone: string, newId: string, now: string) returns (r: Result<User>)
      requires Valid()
      requires NoneHas(users, IdOf, newId)
      modifies this
      ensures Valid()
      ensures Step(State(), r) == Ledger.Register(old(State()), name, email, phone, newId, now)
    {
      RegisterPreservesConsistent(State(), name, email, phone, newId, now);
      if FindIndex(users, EmailOf, email).Some? {
        return Failure(EmailAlreadyExists);
      }
      var newUser := User(newId, name, email, phone, USER, 0.0, now);
      users := users + [newUser];
      session := Some(newId);
      return Success(newUser);
    }

    method UpdateUser(userId: string, name: Option<string>, phone: Option<string>) returns (r: Result<User>)
      requires Valid()
      modifies this
      ensures Valid()
      ensures Step(State(), r) == Ledger.UpdateUser(old(State()), userId, name, phone)
    {
      UpdateUserPreservesConsistent(State(), userId, name, phone);
      var index := FindIndex(users, IdOf, userId);
      if index.None? {
        return Failure(UserNotFound);
      }
      var current := users[index.value];
      var updatedUser := current.(name := if name.Some? then name.value else current.name,
                                  phone := if phone.Some? then phone.value else current.phone);
      users := users[index.value := updatedUser];
      return Success(updatedUser);
    }

    method Logout()
      requires Valid()
      modifies this
      ensures Valid()
      ensures State() == old(State()).(session := None)
    {
      session := None;
    }

    method GetCurrentUser() returns (r: Option<User>)
      ensures r == CurrentUser(State())
    {
      if session.None? {
        return None;
      }
      var index := FindIndex(users, IdOf, session.value);
      if index.None? {
        return None;
      }
      return Some(users[index.value]);
    }

    // ------------------------------------------------------------ gold price

    method GetGoldPrice() returns (p: GoldPrice)
      ensures p == State().price
    {
      return goldPrice;
    }

    /** The price must be positive: the backend does not check it, and every later
        createTransaction divides by it. */
    method SetGoldPrice(price: real, adminId: string, newId: string, now: string) returns (r: Result<GoldPrice>)
      requires Valid()
      requires price > 0.0
      modifies this
      ensures Valid()
      ensures Step(State(), r) == Ledger.SetGoldPrice(old(State()), price, adminId, newId, now)
    {
      var newPrice := GoldPrice(newId, price, now, adminId);
      goldPrice := newPrice;
      return Success(newPrice);
    }

    // ------------------------------------------------------------ payment methods

    method GetPaymentMethods() returns (ms: seq<PaymentMethodInfo>)
      ensures ms == State().paymentMethods
    {
      return paymentMethods;
    }

    method UpdatePaymentMethod(name: PaymentMethod, newDetails: string) returns (r: Result<()>)
      requires Valid()
      modifies this
      ensures Valid()
      ensures Step(State(), r) == Ledger.UpdatePaymentMethod(old(State()), name, newDetails)
    {
      var idx := FindIndex(paymentMethods, MethodNameOf, name);
      if idx.None? {
        return Failure(MethodNotFound);
      }
      paymentMethods := paymentMethods[idx.value := paymentMethods[idx.value].(details := newDetails)];
      return Success(());
    }

    // ------------------------------------------------------------ transactions

    /** `newId` stands for `txn-${Date.now()}`, `now` for the clock and
        `screenshot` for the object URL of the uploaded file. */
    method CreateTransaction(userId: string, amountBDT: real, method_: PaymentMethod, txType: TransactionType,
                             screenshot: Option<string>, userPaymentDetails: Option<string>,
                             newId: string, now: string) returns (r: Result<Transaction>)
      requires Valid()
      modifies this
      ensures Valid()
      ensures Step(State(), r) == Ledger.CreateTransaction(old(State()), userId, amountBDT, method_, txType,
                                                           screenshot, userPaymentDetails, newId, now)
    {
      var priceData := goldPrice;
      var goldGrams := amountBDT / priceData.pricePerGram;
      var userIndex := FindIndex(users, IdOf, userId);
      if userIndex.None? {
        return Failure(UserNotFound);
      }
      var i := userIndex.value;
      if txType == SELL {
        if users[i].walletBalanceGold < goldGrams {
          return Failure(InsufficientBalance);
        }
        users := users[i := users[i].(walletBalanceGold := users[i].walletBalanceGold - goldGrams)];
      }
      var transaction := Transaction(newId, userId, txType, amountBDT, priceData.pricePerGram, goldGrams,
                                     method_, PENDING, now, screenshot, userPaymentDetails);
      transactions := [transaction] + transactions;
      assert State() == Ledger.CreateTransaction(old(State()), userId, amountBDT, method_, txType,
                                                 screenshot, userPaymentDetails, newId, now).store;
      assert Valid() by {
        CreatePreservesConsistent(old(State()), userId, amountBDT, method_, txType, screenshot, userPaymentDetails, newId, now);
      }
      return Success(transaction);
    }

    method ProcessTransaction(txnId: string, action: Action) returns (r: Result<Transaction>)
      requires Valid()
      modifies this
      ensures Valid()
      ensures Step(State(), r) == Ledger.ProcessTransaction(old(State()), txnId, action)
    {
      var txnIndex := FindIndex(transactions, TxnIdOf, txnId);
      if txnIndex.None? {
        return Failure(TransactionNotFound);
      }
      var k := txnIndex.value;
      var txn := transactions[k];
      if txn.status != PENDING {
        return Failure(TransactionNotPending);
      }
      var userIndex := FindIndex(users, IdOf, txn.userId);
      if userIndex.None? {
        return Failure(OwnerNotFound);
      }
      r := Settle(k, userIndex.value, action);
      assert State() == Ledger.ProcessTransaction(old(State()), txnId, action).store;
      assert Valid() by { ProcessPreservesConsistent(old(State()), txnId, action); }
    }

    /** The success path of processTransaction: the owner at `i` of the pending
        transaction at `k` is credited (APPROVE of a BUY) or refunded (REJECT of a
        SELL), and the transaction takes its final status. */
    method Settle(k: nat, i: nat, action: Action) returns (r: Result<Transaction>)
      requires k < |transactions| && i < |users| && transactions[k].status == PENDING
      requires users[i].id == transactions[k].userId
      modifies this
      ensures var t := old(transactions[k]).(status := Outcome(action));
        && r == Success(t)
        && State() == old(State()).(users := old(users)[i := old(users[i]).(walletBalanceGold :=
                                      old(users[i].walletBalanceGold) + Settlement(old(transactions[k]), action))],
                                    txns := old(transactions)[k := t])
    {
      var txn := transactions[k];
      if action == REJECT {
        if txn.txType == SELL {
          users := users[i := users[i].(walletBalanceGold := users[i].walletBalanceGold + txn.goldGrams)];
        }
        txn := txn.(status := FAILED);
        transactions := transactions[k := txn];
        return Success(txn);
      }
      if txn.txType == BUY {
        users := users[i := users[i].(walletBalanceGold := users[i].walletBalanceGold + txn.goldGrams)];
      }
      txn := txn.(status := SUCCESS);
      transactions := transactions[k := txn];
      return Success(txn);
    }

    method GetUserTransactions(userId: string) returns (r: seq<Transaction>)
      ensures r == TransactionsOf(State().txns, userId)
    {
      return TransactionsOf(transactions, userId);
    }

    method GetAllTransactions() returns (r: seq<Transaction>)
      ensures r == State().txns
    {
      return transactions;
    }
  }
}
