/** The ledger behind the wallet's request handlers. Each handler is one method of
    `Ledger` that checks its guards in the handler's order, answers `Err` (a 400
    response) without touching anything when a guard fails, and otherwise updates the
    stored balances and appends its rows to the log tables, as one atomic step.
    The caller of fund, pay, getBalance, getStatement and buyProduct is the
    authenticated user, passed as an id that names an existing account. */
module Controllers {
  import opened WalletTypes
  import opened TransactionLog

  /** The `users` table: ids below the serial counter, and a unique index from
      non-empty usernames to ids that is exactly the inverse of the username column. */
  ghost predicate UsersOk(usernames: map<UserId, string>, userIds: map<string, UserId>, nextUserId: UserId)
  {
    nextUserId > 0 && [] !in userIds &&
    (forall u :: u in usernames ==> 0 < u < nextUserId && usernames[u] in userIds && userIds[usernames[u]] == u) &&
    (forall n :: n in userIds ==> userIds[n] in usernames && usernames[userIds[n]] == n)
  }

  /** The `products` table: keys below the serial counter, named, priced above 0. */
  ghost predicate CatalogOk(products: map<ProductId, Product>, nextProductId: ProductId)
  {
    nextProductId > 0 &&
    forall p :: p in products ==> 0 < p < nextProductId && products[p].name != [] && products[p].price > 0.0
  }

  /** The `purchases` table refers to existing users and products. */
  ghost predicate PurchasesOk(purchases: seq<Purchase>, users: set<UserId>, catalog: set<ProductId>)
  {
    forall i :: 0 <= i < |purchases| ==> purchases[i].userId in users && purchases[i].productId in catalog
  }

  class Ledger {
    // the `users` table, column by column, and its unique index on username
    var usernames: map<UserId, string>
    var balances: map<UserId, real>
    var userIds: map<string, UserId>
    // the append-only `transactions` table, oldest row first
    var transactions: seq<TxRecord>
    var products: map<ProductId, Product>
    var purchases: seq<Purchase>
    // the next values of the two serial id columns
    var nextUserId: UserId
    var nextProductId: ProductId

    /** The ledger's consistency: unique, non-empty usernames under serial ids,
        books that agree (non-negative balances, each reproduced by replaying its
        owner's records, each `updated_bal` the balance it produced), a catalog of
        named, positively priced products, and purchases that refer to existing rows. */
    ghost predicate Valid()
      reads this
    {
      UsersOk(usernames, userIds, nextUserId) &&
      usernames.Keys == balances.Keys &&
      Agrees(balances, transactions) &&
      CatalogOk(products, nextProductId) &&
      PurchasesOk(purchases, usernames.Keys, products.Keys)
    }

    /** An empty wallet: no users, no products, no rows; both serials start at 1. */
    constructor ()
      ensures Valid()
      ensures usernames == map[] && balances == map[] && userIds == map[] && transactions == []
      ensures products == map[] && purchases == []
    {
      usernames, balances, userIds, transactions := map[], map[], map[], [];
      products, purchases := map[], [];
      nextUserId, nextProductId := 1, 1;
    }

    /** The account a username belongs to, if any (the lookup by username). */
    function FindUser(name: string): (r: Option<UserId>)
      reads this
      requires Valid()
      ensures r.Some? <==> exists u :: u in usernames && usernames[u] == name
      ensures r.Some? ==> r.value in balances && usernames[r.value] == name
    {
      if name in userIds then Some(userIds[name]) else None
    }

    /** register: a non-empty username and password, and a username nobody holds,
        create an account with balance 0. The password hash is not modelled. */
    method Register(username: string, password: string) returns (r: Result<UserId>)
      requires Valid()
      modifies this
      ensures Valid()
      ensures username == [] || password == [] ==> r == Err(CredentialsRequired)
      ensures username != [] && password != [] && old(FindUser(username)).Some? ==>
                r == Err(UsernameTaken)
      ensures r.Err? ==> unchanged(this)
      ensures r.Ok? <==> username != [] && password != [] && old(FindUser(username)).None?
      ensures r.Ok? ==>
                r.value !in old(usernames) &&
                usernames == old(usernames)[r.value := username] &&
                userIds == old(userIds)[username := r.value] &&
                balances == old(balances)[r.value := 0.0] &&
                transactions == old(transactions) &&
                unchanged(this`products, this`purchases, this`nextProductId)
    {
      if username == [] || password == [] {
        return Err(CredentialsRequired);
      }
      if username in userIds {
        return Err(UsernameTaken);
      }
      var id := nextUserId;
      OpenKeepsAgreement(balances, transactions, id);
      usernames := usernames[id := username];
      userIds := userIds[username := id];
      balances := balances[id := 0.0];
      nextUserId := nextUserId + 1;
      r := Ok(id);
    }

    /** fund: a positive amount is credited to the caller, who gets one `credit`
        row carrying the new balance; the new balance is returned. */
    method Fund(caller: UserId, amt: Option<real>) returns (r: Result<real>)
      requires Valid() && caller in balances
      modifies this
      ensures Valid()
      ensures !IsPositive(amt) ==> r == Err(InvalidAmount) && unchanged(this)
      ensures IsPositive(amt) ==>
                r.Ok? &&
                r.value == old(balances[caller]) + amt.value &&
                balances == old(balances)[caller := r.value] &&
                transactions == old(transactions) + [TxRecord(caller, Credit, amt.value, r.value)] &&
                unchanged(this`usernames, this`userIds, this`products, this`purchases, this`nextUserId, this`nextProductId)
    {
      if !IsPositive(amt) {
        return Err(InvalidAmount);
      }
      var newBal := balances[caller] + amt.value;
      var record := TxRecord(caller, Credit, amt.value, newBal);
      CreditKeepsAgreement(balances, transactions, caller, amt.value);
      balances := balances[caller := newBal];
      transactions := transactions + [record];
      r := Ok(newBal);
    }

    /** The checks of pay, in the handler's order: input present and amount positive,
        recipient not the caller (compared by username, before any lookup), recipient
        exists, caller's balance covers the amount. Passing them yields the recipient. */
    function PayGuard(caller: UserId, to: string, amt: Option<real>): (v: Result<UserId>)
      reads this
      requires Valid() && caller in balances
      ensures v == Err(InvalidInput) <==> to == [] || !IsPositive(amt)
      ensures v == Err(SelfPayment) <==> to != [] && IsPositive(amt) && to == usernames[caller]
      ensures v == Err(UnknownRecipient) <==>
                to != [] && IsPositive(amt) && to != usernames[caller] && FindUser(to).None?
      ensures v == Err(InsufficientFunds) <==>
                to != [] && IsPositive(amt) && to != usernames[caller] && FindUser(to).Some? &&
                balances[caller] < amt.value
      ensures v.Ok? <==>
                to != [] && IsPositive(amt) && to != usernames[caller] && FindUser(to).Some? &&
                balances[caller] >= amt.value
      ensures v.Ok? ==> v.value in balances && v.value != caller && usernames[v.value] == to
    {
      if to == [] || !IsPositive(amt) then Err(InvalidInput)
      else if to == usernames[caller] then Err(SelfPayment)
      else match FindUser(to)
        case None => Err(UnknownRecipient)
        case Some(rcp) => if balances[caller] < amt.value then Err(InsufficientFunds) else Ok(rcp)
    }

    /** pay: when the checks pass, the amount moves from the caller to the recipient,
        the caller gets a `debit` row and then the recipient a `credit` row, each
        carrying its owner's new balance, and the caller's new balance is returned.
        Funds are conserved, the caller's balance stays non-negative and nobody
        else's balance moves. When a check fails, nothing changes. */
    method Pay(caller: UserId, to: string, amt: Option<real>) returns (r: Result<real>)
      requires Valid() && caller in balances
      modifies this
      ensures Valid()
      ensures r.Err? <==> old(PayGuard(caller, to, amt)).Err?
      ensures r.Err? ==> r.error == old(PayGuard(caller, to, amt)).error && unchanged(this)
      ensures r.Ok? ==>
                var rcp := old(PayGuard(caller, to, amt)).value;
                r.value == old(balances[caller]) - amt.value &&
                balances == old(balances)[caller := r.value][rcp := old(balances[rcp]) + amt.value] &&
                balances[caller] + balances[rcp] == old(balances[caller]) + old(balances[rcp]) &&
                balances[caller] >= 0.0 &&
                (forall u :: u in balances && u != caller && u != rcp ==> balances[u] == old(balances[u])) &&
                transactions == old(transactions) + [TxRecord(caller, Debit, amt.value, balances[caller]),
                                                     TxRecord(rcp, Credit, amt.value, balances[rcp])] &&
                unchanged(this`usernames, this`userIds, this`products, this`purchases, this`nextUserId, this`nextProductId)
    {
      var verdict := PayGuard(caller, to, amt);
      if verdict.Err? {
        return Err(verdict.error);
      }
      var rcp := verdict.value;
      var newSenderBal := balances[caller] - amt.value;
      var newRecipientBal := balances[rcp] + amt.value;
      var debit := TxRecord(caller, Debit, amt.value, newSenderBal);
      var credit := TxRecord(rcp, Credit, amt.value, newRecipientBal);
      var after := balances[caller := newSenderBal][rcp := newRecipientBal];
      TransferKeepsAgreement(balances, transactions, caller, rcp, amt.value);
      assert after.Keys == balances.Keys;
      assert after[caller] + after[rcp] == balances[caller] + balances[rcp];
      balances := after;
      transactions := transactions + [debit, credit];
      r := Ok(newSenderBal);
    }

    /** getBalance without a currency: the caller's stored balance, in INR. */
    method GetBalance(caller: UserId) returns (bal: real)
      requires Valid() && caller in balances
      ensures bal == balances[caller]
      ensures bal >= 0.0
      ensures bal == Replay(transactions, caller)
    {
      bal := balances[caller];
    }

    /** getStatement: the caller's records, most recent first. */
    method GetStatement(caller: UserId) returns (rows: seq<TxRecord>)
      requires Valid() && caller in balances
      ensures rows == StatementOf(transactions, caller)
      ensures forall t :: t in rows <==> t in transactions && t.userId == caller
      ensures SumSigned(rows) == balances[caller]
      ensures rows != [] ==> rows[0].updatedBal == balances[caller]
    {
      rows := StatementOf(transactions, caller);
      StatementMembers(transactions, caller);
      StatementSum(transactions, caller);
      if rows != [] {
        StatementHead(transactions, caller);
      }
    }

    /** addProduct: a non-empty name and a positive price add a catalog entry under
        a fresh id, which is returned. */
    method AddProduct(name: string, price: Option<real>, description: string) returns (r: Result<ProductId>)
      requires Valid()
      modifies this
      ensures Valid()
      ensures name == [] || !IsPositive(price) ==> r == Err(InvalidProductData) && unchanged(this)
      ensures name != [] && IsPositive(price) ==>
                r.Ok? && r.value !in old(products) &&
                products == old(products)[r.value := Product(name, price.value, description)] &&
                unchanged(this`usernames, this`userIds, this`balances, this`transactions, this`purchases, this`nextUserId)
    {
      if name == [] || !IsPositive(price) {
        return Err(InvalidProductData);
      }
      var id := nextProductId;
      products := products[id := Product(name, price.value, description)];
      nextProductId := nextProductId + 1;
      r := Ok(id);
    }

    /** The checks of buyProduct, in the handler's order: a present, non-zero product
        id, a catalog entry under it, a balance that covers its price. Passing them
        yields the product. */
    function BuyGuard(caller: UserId, productId: Option<int>): (v: Result<Product>)
      reads this
      requires Valid() && caller in balances
      ensures v == Err(InvalidProductId) <==> productId.None? || productId.value == 0
      ensures v == Err(UnknownProduct) <==>
                productId.Some? && productId.value != 0 && !(productId.value >= 0 && productId.value in products)
      ensures v == Err(InsufficientBalance) <==>
                productId.Some? && productId.value > 0 && productId.value in products &&
                balances[caller] < products[productId.value].price
      ensures v.Ok? <==>
                productId.Some? && productId.value > 0 && productId.value in products &&
                balances[caller] >= products[productId.value].price
      ensures v.Ok? ==>
                productId.Some? && productId.value in products && v.value == products[productId.value] &&
                0.0 < v.value.price <= balances[caller]
    {
      if productId.None? || productId.value == 0 then Err(InvalidProductId)
      else if productId.value < 0 || productId.value !in products then Err(UnknownProduct)
      else
        var product := products[productId.value];
        if balances[caller] < product.price then Err(InsufficientBalance) else Ok(product)
    }

    /** buyProduct: when the checks pass, the price is debited from the caller, who
        gets one `debit` row carrying the new balance and one purchase row, and the new
        balance is returned; the balance stays non-negative. When a check fails,
        nothing changes. */
    method BuyProduct(caller: UserId, productId: Option<int>) returns (r: Result<real>)
      requires Valid() && caller in balances
      modifies this
      ensures Valid()
      ensures r.Err? <==> old(BuyGuard(caller, productId)).Err?
      ensures r.Err? ==> r.error == old(BuyGuard(caller, productId)).error && unchanged(this)
      ensures r.Ok? ==>
                var price := old(BuyGuard(caller, productId)).value.price;
                r.value == old(balances[caller]) - price &&
                r.value >= 0.0 &&
                balances == old(balances)[caller := r.value] &&
                transactions == old(transactions) + [TxRecord(caller, Debit, price, r.value)] &&
                purchases == old(purchases) + [Purchase(caller, productId.value)] &&
                unchanged(this`usernames, this`userIds, this`products, this`nextUserId, this`nextProductId)
    {
      var verdict := BuyGuard(caller, productId);
      if verdict.Err? {
        return Err(verdict.error);
      }
      var price := verdict.value.price;
      var newBalance := balances[caller] - price;
      var record := TxRecord(caller, Debit, price, newBalance);
      DebitKeepsAgreement(balances, transactions, caller, price);
      balances := balances[caller := newBalance];
      transactions := transactions + [record];
      purchases := purchases + [Purchase(caller, productId.value)];
      r := Ok(newBalance);
    }
  }

  /** Paying oneself, or a username nobody holds, is refused. */
  method RefusalScenario()
  {
    var ledger := new Ledger();
    var b := ledger.Register("bob", "hunter2");
    assert ledger.usernames == map[b.value := "bob"] && ledger.userIds == map["bob" := b.value];
    var self := ledger.Pay(b.value, "bob", Some(1.0));
    assert self == Err(SelfPayment);
    var nobody := ledger.Pay(b.value, "carol", Some(1.0));
    assert nobody == Err(UnknownRecipient);
  }
}
