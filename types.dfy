/** Record shapes and enumerations of the gold wallet (types.ts).
    JavaScript numbers are modelled as `real`, strings as `seq<char>`,
    optional properties as `Option`. */
module Types {

  datatype Option<+T> = None | Some(value: T)

  datatype UserRole = USER | ADMIN

  datatype TransactionStatus = PENDING | SUCCESS | FAILED

  datatype TransactionType = BUY | SELL

  datatype PaymentMethod = BKASH | NAGAD | ROCKET | BANK

  /** The admin's decision on a pending transaction ('APPROVE' | 'REJECT'). */
  datatype Action = APPROVE | REJECT

  datatype User = User(
    id: string,
    name: string,
    email: string,
    phone: string,
    role: UserRole,
    walletBalanceGold: real,   // grams
    createdAt: string)

  datatype GoldPrice = GoldPrice(
    id: string,
    pricePerGram: real,        // BDT
    updatedAt: string,
    updatedBy: string)

  datatype PaymentMethodInfo = PaymentMethodInfo(name: PaymentMethod, details: string)

  datatype Transaction = Transaction(
    id: string,
    userId: string,
    txType: TransactionType,
    amountBDT: real,
    goldPriceAtMoment: real,
    goldGrams: real,
    paymentMethod: PaymentMethod,
    status: TransactionStatus,
    date: string,
    screenshot: Option<string>,          // opaque reference to the uploaded proof
    userPaymentDetails: Option<string>)  // payout instructions given by a seller

  /** The failure messages the backend returns, one constructor per message. */
  datatype Error =
    | UserNotFound           // login, updateUser, createTransaction
    | EmailAlreadyExists     // register
    | MethodNotFound         // updatePaymentMethod
    | InsufficientBalance    // createTransaction, SELL
    | TransactionNotFound    // processTransaction
    | TransactionNotPending  // processTransaction
    | OwnerNotFound          // processTransaction: the transaction's user is missing

  /** ApiResponse<T>: `success: true` with `data`, or `success: false` with a message. */
  datatype Result<+T> = Success(data: T) | Failure(error: Error)

  function IdOf(u: User): string { u.id }

  function EmailOf(u: User): string { u.email }

  function TxnIdOf(t: Transaction): string { t.id }

  function MethodNameOf(m: PaymentMethodInfo): PaymentMethod { m.name }
}
