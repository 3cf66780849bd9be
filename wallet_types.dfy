/** Values stored in, passed to and returned by the wallet's ledger: the rows of the
    `transactions`, `products` and `purchases` tables, the request outcomes, and the
    error answers (the 400 responses) of the request handlers. Money is kept as an
    exact `real` in the service's single base currency (INR). */
module WalletTypes {

  datatype Option<+T> = None | Some(value: T)

  /** The reasons a handler answers 400, one per distinct error message. */
  datatype Error =
    | CredentialsRequired   // register: 'Username and password required'
    | UsernameTaken         // register: 'Username already exists'
    | InvalidAmount         // fund: 'Invalid amount'
    | InvalidInput          // pay: 'Invalid input'
    | SelfPayment           // pay: 'Cannot pay yourself'
    | UnknownRecipient      // pay: 'Recipient does not exist'
    | InsufficientFunds     // pay: 'Insufficient funds'
    | InvalidProductData    // addProduct: 'Invalid product data'
    | InvalidProductId      // buyProduct: 'Invalid product ID'
    | UnknownProduct        // buyProduct: 'Invalid product'
    | InsufficientBalance   // buyProduct: 'Insufficient balance'

  datatype Result<+T> = Ok(value: T) | Err(error: Error)

  /** Serial identifiers of the `users` and `products` tables. */
  type UserId = nat
  type ProductId = nat

  datatype Kind = Credit | Debit

  /** One row of the append-only `transactions` table. Its timestamp is its position
      in the log: a later row has a later timestamp. */
  datatype TxRecord = TxRecord(userId: UserId, kind: Kind, amt: real, updatedBal: real)

  /** One row of the `products` table. */
  datatype Product = Product(name: string, price: real, description: string)

  /** One row of the `purchases` table. */
  datatype Purchase = Purchase(userId: UserId, productId: ProductId)

  /** A request amount: `None` stands for a body field that is missing or not a number. */
  predicate IsPositive(amt: Option<real>)
  {
    amt.Some? && amt.value > 0.0
  }
}
