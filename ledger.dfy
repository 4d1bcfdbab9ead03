/** The state of the mock backend (services/mockBackend.ts) as a value, and each of
    its operations as a function from the old state to the new state and the
    response. The class in mock_backend.dfy keeps the same state in fields and
    is proved to follow these functions step by step. */
module Ledger {
  import opened Types
  import opened Lookup

  /** The four persisted collections and the session pointer. */
  datatype Store = Store(
    users: seq<User>,
    price: GoldPrice,                       // the single "current price" record
    paymentMethods: seq<PaymentMethodInfo>,
    txns: seq<Transaction>,                 // newest first
    session: Option<string>)                // id of the logged-in user

  /** The store after an operation together with the operation's response. */
  datatype Step<T> = Step(store: Store, result: Result<T>)

  // ---------------------------------------------------------------- seed data

  const ADMIN_ID: string := "admin-1"

  function DefaultAdmin(now: string): User
  {
    User(ADMIN_ID, "System Admin", "admin@auro.com", "01700000000", ADMIN, 0.0, now)
  }

  function InitialPrice(now: string): GoldPrice
  {
    GoldPrice("price-1", 9500.0, now, ADMIN_ID)
  }

  const DEFAULT_PAYMENT_METHODS: seq<PaymentMethodInfo> := [
    PaymentMethodInfo(BKASH, "Send Money to Personal: 01700000000\nReference: Your Phone Number"),
    PaymentMethodInfo(NAGAD, "Send Money to Merchant: 01800000000\nCounter: 1"),
    PaymentMethodInfo(ROCKET, "Send Money to: 01900000000-8"),
    PaymentMethodInfo(BANK, "City Bank\nA/C: 123456789\nAuro Gold Ltd.")
  ]

  // ---------------------------------------------------------------- accounting

  /** What a transaction in its current status has done to its owner's balance:
      an approved BUY has credited its grams, a pending or approved SELL has
      debited them, anything else has had no effect. */
  function Effect(t: Transaction): real
  {
    match t.txType
    case BUY => if t.status == SUCCESS then t.goldGrams else 0.0
    case SELL => if t.status == FAILED then 0.0 else -t.goldGrams
  }

  /** The net effect of the ledger `txns` on the balance of user `uid`. */
  function Holdings(txns: seq<Transaction>, uid: string): real
    decreases |txns|
  {
    if txns == [] then 0.0
    else (if txns[0].userId == uid then Effect(txns[0]) else 0.0) + Holdings(txns[1..], uid)
  }

  /** The sum of the effects of a list of transactions. */
  function NetGrams(txns: seq<Transaction>): real
    decreases |txns|
  {
    if txns == [] then 0.0 else Effect(txns[0]) + NetGrams(txns[1..])
  }

  ghost predicate UniqueIds(users: seq<User>)
  {
    forall a, b :: 0 <= a < b < |users| ==> users[a].id != users[b].id
  }

  ghost predicate UniqueEmails(users: seq<User>)
  {
    forall a, b :: 0 <= a < b < |users| ==> users[a].email != users[b].email
  }

  /** The store invariant: a positive price, one user per id and per email, every
      transaction owned by a registered user, and every balance exactly what the
      ledger says it is. */
  ghost predicate Consistent(s: Store)
  {
    && s.price.pricePerGram > 0.0
    && UniqueIds(s.users)
    && UniqueEmails(s.users)
    && (forall k :: 0 <= k < |s.txns| ==> FindIndex(s.users, IdOf, s.txns[k].userId).Some?)
    && (forall i :: 0 <= i < |s.users| ==> s.users[i].walletBalanceGold == Holdings(s.txns, s.users[i].id))
  }

  /** No balance is negative. */
  ghost predicate Solvent(s: Store)
  {
    forall i :: 0 <= i < |s.users| ==> s.users[i].walletBalanceGold >= 0.0
  }

  /** No transaction moves a negative number of grams. */
  ghost predicate NonNegativeGrams(s: Store)
  {
    forall k :: 0 <= k < |s.txns| ==> s.txns[k].goldGrams >= 0.0
  }

  /** Every payment method has an entry. */
  ghost predicate AllMethodsListed(methods: seq<PaymentMethodInfo>)
  {
    forall m: PaymentMethod :: FindIndex(methods, MethodNameOf, m).Some?
  }

  /** `after` is `before` with only the balance of user `i` replaced by `balance`. */
  ghost predicate BalanceSetAt(before: seq<User>, after: seq<User>, i: nat, balance: real)
  {
    i < |before| && after == before[i := before[i].(walletBalanceGold := balance)]
  }

  // ---------------------------------------------------------------- init

  /** A fresh backend: the default admin, the initial price of 9500 BDT per gram,
      the four default payment instructions, an empty ledger and nobody logged in. */
  function Initial(now: string): (s: Store)
    ensures Consistent(s) && Solvent(s) && NonNegativeGrams(s)
    ensures AllMethodsListed(s.paymentMethods)
    ensures s.price.pricePerGram == 9500.0 && s.txns == [] && s.session == None
    ensures |s.users| == 1 && s.users[0].role == ADMIN && s.users[0].walletBalanceGold == 0.0
    ensures s.users[0].id == ADMIN_ID && s.users[0].email == "admin@auro.com"
  {
    var s := Store([DefaultAdmin(now)], InitialPrice(now), DEFAULT_PAYMENT_METHODS, [], None);
    assert AllMethodsListed(s.paymentMethods) by {
      forall m: PaymentMethod ensures FindIndex(s.paymentMethods, MethodNameOf, m).Some? {
        FindIndexIsFirst(s.paymentMethods, MethodNameOf, m,
          match m case BKASH => 0 case NAGAD => 1 case ROCKET => 2 case BANK => 3);
      }
    }
    s
  }

  // ---------------------------------------------------------------- accounts

  /** login: the first user with this email becomes the session user. */
  function Login(s: Store, email: string): (out: Step<User>)
    ensures out.result.Failure? <==> NoneHas(s.users, EmailOf, email)
    ensures out.result.Failure? ==> out.result.error == UserNotFound && out.store == s
    ensures out.result.Success? ==>
      && (exists i: nat :: IsFirst(s.users, EmailOf, email, i) && s.users[i] == out.result.data)
      && out.store == s.(session := Some(out.result.data.id))
  {
    match FindIndex(s.users, EmailOf, email)
    case None => Step(s, Failure(UserNotFound))
    case Some(i) => Step(s.(session := Some(s.users[i].id)), Success(s.users[i]))
  }

  /** register: refused when the email is taken; otherwise a USER with an empty
      wallet is appended and logged in. */
  function Register(s: Store, name: string, email: string, phone: string, newId: string, now: string): (out: Step<User>)
    ensures out.result.Failure? <==> !NoneHas(s.users, EmailOf, email)
    ensures out.result.Failure? ==> out.result.error == EmailAlreadyExists && out.store == s
    ensures out.result.Success? ==>
      var u := out.result.data;
      && u.id == newId && u.name == name && u.email == email && u.phone == phone && u.createdAt == now
      && u.role == USER && u.walletBalanceGold == 0.0
      && out.store.users == s.users + [u]
      && out.store == s.(users := out.store.users, session := Some(newId))
  {
    if FindIndex(s.users, EmailOf, email).Some? then Step(s, Failure(EmailAlreadyExists))
    else
      var u := User(newId, name, email, phone, USER, 0.0, now);
      Step(s.(users := s.users + [u], session := Some(newId)), Success(u))
  }

  /** updateUser: the first user with this id gets the given name and phone (an
      absent field keeps its value); nothing else about any user changes. */
  function UpdateUser(s: Store, userId: string, name: Option<string>, phone: Option<string>): (out: Step<User>)
    ensures out.result.Failure? <==> NoneHas(s.users, IdOf, userId)
    ensures out.result.Failure? ==> out.result.error == UserNotFound && out.store == s
    ensures out.result.Success? ==>
      exists i: nat :: IsFirst(s.users, IdOf, userId, i) &&
        var old_, u := s.users[i], out.result.data;
        && u.id == old_.id && u.email == old_.email && u.role == old_.role
        && u.walletBalanceGold == old_.walletBalanceGold && u.createdAt == old_.createdAt
        && u.name == (if name.Some? then name.value else old_.name)
        && u.phone == (if phone.Some? then phone.value else old_.phone)
        && out.store == s.(users := s.users[i := u])
  {
    match FindIndex(s.users, IdOf, userId)
    case None => Step(s, Failure(UserNotFound))
    case Some(i) =>
      var u := s.users[i];
      var u' := u.(name := if name.Some? then name.value else u.name,
                   phone := if phone.Some? then phone.value else u.phone);
      Step(s.(users := s.users[i := u']), Success(u'))
  }

  /** getCurrentUser: the session is only a pointer; the user is re-read by id. */
  function CurrentUser(s: Store): (r: Option<User>)
    ensures r.Some? ==> s.session == Some(r.value.id) && r.value in s.users
    ensures r.None? ==> s.session.None? || NoneHas(s.users, IdOf, s.session.value)
  {
    match s.session
    case None => None
    case Some(id) =>
      match FindIndex(s.users, IdOf, id)
      case None => None
      case Some(i) => Some(s.users[i])
  }

  // ---------------------------------------------------------------- price

  /** setGoldPrice: replaces the current price record; no user and no
      transaction is touched, so every frozen snapshot keeps its value. */
  function SetGoldPrice(s: Store, price: real, adminId: string, newId: string, now: string): (out: Step<GoldPrice>)
    ensures out.result.Success? && out.result.data == out.store.price
    ensures out.store.price.pricePerGram == price && out.store.price.updatedBy == adminId
    ensures out.store.price.id == newId && out.store.price.updatedAt == now
    ensures out.store == s.(price := out.store.price)
  {
    var p := GoldPrice(newId, price, now, adminId);
    Step(s.(price := p), Success(p))
  }

  // ---------------------------------------------------------------- payment methods

  /** updatePaymentMethod: rewrites the instructions of the first entry for this
      method, or fails when there is none. */
  function UpdatePaymentMethod(s: Store, name: PaymentMethod, details: string): (out: Step<()>)
    ensures out.result.Failure? <==> NoneHas(s.paymentMethods, MethodNameOf, name)
    ensures out.result.Failure? ==> out.result.error == MethodNotFound && out.store == s
    ensures out.result.Success? ==>
      exists i: nat :: IsFirst(s.paymentMethods, MethodNameOf, name, i) &&
        out.store == s.(paymentMethods := s.paymentMethods[i := PaymentMethodInfo(name, details)])
  {
    match FindIndex(s.paymentMethods, MethodNameOf, name)
    case None => Step(s, Failure(MethodNotFound))
    case Some(i) =>
      Step(s.(paymentMethods := s.paymentMethods[i := s.paymentMethods[i].(details := details)]), Success(()))
  }

  // ---------------------------------------------------------------- transactions

  /** The status a pending transaction moves to. */
  function Outcome(action: Action): (st: TransactionStatus)
    ensures st != PENDING
    ensures st == SUCCESS <==> action == APPROVE
  {
    match action
    case APPROVE => SUCCESS
    case REJECT => FAILED
  }

  /** The balance change of settling a pending transaction: approving a BUY
      credits its grams, rejecting a SELL refunds them, the other two do nothing.
      It is exactly the change that the status move makes to the ledger. */
  function Settlement(t: Transaction, action: Action): (delta: real)
    requires t.status == PENDING
    ensures Effect(t.(status := Outcome(action))) == Effect(t) + delta
  {
    if (action == APPROVE && t.txType == BUY) || (action == REJECT && t.txType == SELL) then t.goldGrams
    else 0.0
  }

  /** createTransaction: freezes the current price and amount / price into a new
      PENDING transaction at the head of the ledger. A SELL is refused when the
      seller holds fewer grams, and otherwise debits them at once. */
  function CreateTransaction(s: Store, userId: string, amountBDT: real, method_: PaymentMethod,
                             txType: TransactionType, screenshot: Option<string>,
                             userPaymentDetails: Option<string>, newId: string, now: string): (out: Step<Transaction>)
    requires s.price.pricePerGram > 0.0
    ensures out.result.Failure? ==> out.store == s
    ensures out.result.Failure? ==> out.result.error == UserNotFound || out.result.error == InsufficientBalance
    ensures out.result == Failure(UserNotFound) <==> NoneHas(s.users, IdOf, userId)
    ensures var ui := FindIndex(s.users, IdOf, userId);
      out.result == Failure(InsufficientBalance) <==>
        txType == SELL && ui.Some? && s.users[ui.value].walletBalanceGold < amountBDT / s.price.pricePerGram
    ensures out.result.Success? ==>
      var t := out.result.data;
      && t.status == PENDING
      && t.goldPriceAtMoment == s.price.pricePerGram
      && t.goldGrams == amountBDT / s.price.pricePerGram
      && t.id == newId && t.userId == userId && t.txType == txType && t.amountBDT == amountBDT
      && t.paymentMethod == method_ && t.date == now
      && t.screenshot == screenshot && t.userPaymentDetails == userPaymentDetails
      && out.store.txns == [t] + s.txns
      && out.store == s.(users := out.store.users, txns := out.store.txns)
    ensures out.result.Success? && txType == BUY ==> out.store.users == s.users
    ensures out.result.Success? && txType == SELL ==>
      FindIndex(s.users, IdOf, userId).Some? &&
      var i := FindIndex(s.users, IdOf, userId).value;
      s.users[i].walletBalanceGold >= out.result.data.goldGrams &&
      BalanceSetAt(s.users, out.store.users, i, s.users[i].walletBalanceGold - out.result.data.goldGrams)
  {
    var grams := amountBDT / s.price.pricePerGram;
    match FindIndex(s.users, IdOf, userId)
    case None => Step(s, Failure(UserNotFound))
    case Some(i) =>
      if txType == SELL && s.users[i].walletBalanceGold < grams then Step(s, Failure(InsufficientBalance))
      else
        var users' := if txType == SELL
                      then s.users[i := s.users[i].(walletBalanceGold := s.users[i].walletBalanceGold - grams)]
                      else s.users;
        var t := Transaction(newId, userId, txType, amountBDT, s.price.pricePerGram, grams, method_,
                             PENDING, now, screenshot, userPaymentDetails);
        Step(s.(users := users', txns := [t] + s.txns), Success(t))
  }

  /** processTransaction: the first transaction with this id, if PENDING and owned
      by a known user, moves to SUCCESS (approve) or FAILED (reject) and its
      owner's balance changes by the settlement amount; nothing else changes. */
  function ProcessTransaction(s: Store, txnId: string, action: Action): (out: Step<Transaction>)
    ensures out.result.Failure? ==> out.store == s
    ensures out.result.Failure? ==>
      out.result.error == TransactionNotFound || out.result.error == TransactionNotPending ||
      out.result.error == OwnerNotFound
    ensures out.result == Failure(TransactionNotFound) <==> NoneHas(s.txns, TxnIdOf, txnId)
    ensures var k := FindIndex(s.txns, TxnIdOf, txnId);
      out.result == Failure(TransactionNotPending) <==> k.Some? && s.txns[k.value].status != PENDING
    ensures var k := FindIndex(s.txns, TxnIdOf, txnId);
      out.result == Failure(OwnerNotFound) <==>
        k.Some? && s.txns[k.value].status == PENDING && NoneHas(s.users, IdOf, s.txns[k.value].userId)
    ensures out.result.Success? ==>
      FindIndex(s.txns, TxnIdOf, txnId).Some? &&
      var t := s.txns[FindIndex(s.txns, TxnIdOf, txnId).value];
      FindIndex(s.users, IdOf, t.userId).Some? &&
      var k, i := FindIndex(s.txns, TxnIdOf, txnId).value, FindIndex(s.users, IdOf, t.userId).value;
      && t.status == PENDING
      && out.result.data == t.(status := Outcome(action))
      && out.store.txns == s.txns[k := out.result.data]
      && BalanceSetAt(s.users, out.store.users, i, s.users[i].walletBalanceGold + Settlement(t, action))
      && out.store == s.(users := out.store.users, txns := out.store.txns)
  {
    match FindIndex(s.txns, TxnIdOf, txnId)
    case None => Step(s, Failure(TransactionNotFound))
    case Some(k) =>
      var t := s.txns[k];
      if t.status != PENDING then Step(s, Failure(TransactionNotPending))
      else
        match FindIndex(s.users, IdOf, t.userId)
        case None => Step(s, Failure(OwnerNotFound))
        case Some(i) =>
          var users' := if (action == REJECT && t.txType == SELL) || (action == APPROVE && t.txType == BUY)
                        then s.users[i := s.users[i].(walletBalanceGold := s.users[i].walletBalanceGold + t.goldGrams)]
                        else s.users;
          var t' := t.(status := Outcome(action));
          Step(s.(users := users', txns := s.txns[k := t']), Success(t'))
  }

  /** `idx` picks the elements of `r` out of `s` at strictly increasing positions. */
  ghost predicate PickedInOrder<T>(r: seq<T>, s: seq<T>, idx: seq<nat>)
  {
    && |idx| == |r|
    && (forall j :: 0 <= j < |r| ==> idx[j] < |s| && s[idx[j]] == r[j])
    && (forall a, b :: 0 <= a < b < |idx| ==> idx[a] < idx[b])
  }

  /** `r` is `s` with some elements left out and the rest kept in their order. */
  ghost predicate Subsequence<T>(r: seq<T>, s: seq<T>)
  {
    exists idx: seq<nat> :: PickedInOrder(r, s, idx)
  }

  /** getUserTransactions: the transactions of one user, in ledger order. */
  function TransactionsOf(txns: seq<Transaction>, uid: string): (r: seq<Transaction>)
    ensures |r| <= |txns|
    ensures forall t :: t in r <==> t in txns && t.userId == uid
    ensures forall t :: multiset(r)[t] == if t.userId == uid then multiset(txns)[t] else 0
    decreases |txns|
  {
    if txns == [] then []
    else
      assert txns == [txns[0]] + txns[1..];
      (if txns[0].userId == uid then [txns[0]] else []) + TransactionsOf(txns[1..], uid)
  }
}
