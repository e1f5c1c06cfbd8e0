/**
 * The server-side data layer of app.py over an in-memory store.
 *
 * The read-only handlers (mall login, staff login, barcode lookup) are
 * functions of the table contents and the session; the handlers that write
 * rows (registration, staff creation, product insertion, checkout) are
 * methods of the class `Database`, whose fields are the five tables and their
 * AUTOINCREMENT counters.
 */
module App {
  import opened Schema

  // ---------------------------------------------------------------------------
  // Table invariants
  // ---------------------------------------------------------------------------

  /** The `UNIQUE` constraint on `malls.mall_id`. */
  predicate MallCodesUnique(malls: seq<Mall>)
  {
    forall i, j :: 0 <= i < j < |malls| ==> malls[i].code != malls[j].code
  }

  /** The primary key of `malls`. */
  predicate MallIdsUnique(malls: seq<Mall>)
  {
    forall i, j :: 0 <= i < j < |malls| ==> malls[i].id != malls[j].id
  }

  /** Some transaction row has the id `transactionId`. */
  predicate TransactionExists(txns: seq<Transaction>, transactionId: int)
  {
    exists j :: 0 <= j < |txns| && txns[j].id == transactionId
  }

  /** Every item row names a transaction row that exists. */
  predicate ItemsReferenceTransactions(items: seq<TransactionItem>, txns: seq<Transaction>)
  {
    forall k :: 0 <= k < |items| ==> TransactionExists(txns, items[k].transactionId)
  }

  // ---------------------------------------------------------------------------
  // Mall login (POST /login)
  // ---------------------------------------------------------------------------

  datatype LoginOutcome =
    | LoggedIn(session: Session)
    | InvalidCredentials
      /** user_login found the user but no mall row with its mall_id */
    | MallMissing

  /** The session after a mall login: three keys are set, the others are kept. */
  function AdminSession(s: Session, m: Mall): Session
  {
    s.(mallId := Some(m.id), mallName := Some(m.name), role := Some("admin"))
  }

  /**
   * Mall login: the first mall whose code is `code` must accept `password`.
   * The session keeps any `user_id` it held before.
   */
  function MallLogin(malls: seq<Mall>, s: Session, code: string, password: string): (r: LoginOutcome)
    ensures r.LoggedIn? || r == InvalidCredentials
    ensures r.LoggedIn? ==>
      exists i :: 0 <= i < |malls| && malls[i].code == code
        && CheckPassword(malls[i].password, password)
        && r.session == AdminSession(s, malls[i])
    ensures (forall i :: 0 <= i < |malls| ==> malls[i].code != code) ==> r == InvalidCredentials
  {
    match FirstMatch(malls, (m: Mall) => m.code == code)
    case Some(i) =>
      if CheckPassword(malls[i].password, password) then LoggedIn(AdminSession(s, malls[i]))
      else InvalidCredentials
    case None => InvalidCredentials
  }

  /** With unique codes, the mall holding the code decides the login on its password alone. */
  lemma MallLoginDecided(malls: seq<Mall>, s: Session, code: string, password: string, i: nat)
    requires MallCodesUnique(malls)
    requires i < |malls| && malls[i].code == code
    ensures MallLogin(malls, s, code, password)
            == if CheckPassword(malls[i].password, password) then LoggedIn(AdminSession(s, malls[i]))
               else InvalidCredentials
  {
    var f := FirstMatch(malls, (m: Mall) => m.code == code);
    assert forall j :: 0 <= j < |malls| && j != i ==> malls[j].code != code;
    assert f == Some(i);
  }

  /** A mall registered with a fresh code can log in with the password it registered with. */
  lemma RegisteredMallLogsIn(malls: seq<Mall>, m: Mall, password: string, salt: string, s: Session)
    requires MallCodesUnique(malls)
    requires forall i :: 0 <= i < |malls| ==> malls[i].code != m.code
    requires m.password == HashPassword(password, salt)
    ensures MallCodesUnique(malls + [m])
    ensures MallLogin(malls + [m], s, m.code, password) == LoggedIn(AdminSession(s, m))
  {
    var ms := malls + [m];
    assert MallCodesUnique(ms) by {
      forall i, j | 0 <= i < j < |ms| ensures ms[i].code != ms[j].code {
        if j == |malls| {
          assert ms[i] == malls[i];
        } else {
          assert ms[i] == malls[i] && ms[j] == malls[j];
        }
      }
    }
    MallLoginDecided(ms, s, m.code, password, |malls|);
  }

  // ---------------------------------------------------------------------------
  // Staff login (POST /user-login)
  // ---------------------------------------------------------------------------

  /** The staff-login filter: the username matches and the account is active (is_active is 1). */
  predicate ActiveNamed(u: User, username: string)
  {
    u.username == username && u.isActive == 1
  }

  /** The session after a staff login: four keys are set, the others are kept. */
  function StaffSession(s: Session, u: User, m: Mall): Session
  {
    s.(userId := Some(u.id), mallId := Some(u.mallId), role := Some(u.role), mallName := Some(m.name))
  }

  /**
   * Staff login: only the FIRST active user with that username is tried; an
   * inactive user is never considered, whatever the password. The mall name
   * is then read from the mall the user belongs to.
   */
  function StaffLogin(users: seq<User>, malls: seq<Mall>, s: Session, username: string,
                      password: string): (r: LoginOutcome)
    ensures r.LoggedIn? ==>
      exists i :: 0 <= i < |users| && ActiveNamed(users[i], username)
        && (forall j :: 0 <= j < i ==> !ActiveNamed(users[j], username))
        && CheckPassword(users[i].password, password)
        && exists k :: 0 <= k < |malls| && malls[k].id == users[i].mallId
             && r.session == StaffSession(s, users[i], malls[k])
    ensures r == MallMissing ==>
      exists i :: 0 <= i < |users| && ActiveNamed(users[i], username)
        && (forall j :: 0 <= j < i ==> !ActiveNamed(users[j], username))
        && CheckPassword(users[i].password, password)
        && forall k :: 0 <= k < |malls| ==> malls[k].id != users[i].mallId
    ensures (forall i :: 0 <= i < |users| ==> !ActiveNamed(users[i], username)) ==>
      r == InvalidCredentials
  {
    match FirstMatch(users, (u: User) => ActiveNamed(u, username))
    case None => InvalidCredentials
    case Some(i) =>
      if !CheckPassword(users[i].password, password) then InvalidCredentials
      else match FirstMatch(malls, (m: Mall) => m.id == users[i].mallId)
        case None => MallMissing
        case Some(k) => LoggedIn(StaffSession(s, users[i], malls[k]))
  }

  /**
   * The first active user with the username decides the staff login: its
   * password either opens the session of its mall or the login fails (a later
   * user with the same name is never tried).
   */
  lemma StaffLoginDecided(users: seq<User>, malls: seq<Mall>, s: Session, username: string,
                          password: string, i: nat, k: nat)
    requires i < |users| && ActiveNamed(users[i], username)
    requires forall j :: 0 <= j < i ==> !ActiveNamed(users[j], username)
    requires MallIdsUnique(malls) && k < |malls| && malls[k].id == users[i].mallId
    ensures StaffLogin(users, malls, s, username, password)
            == if CheckPassword(users[i].password, password) then LoggedIn(StaffSession(s, users[i], malls[k]))
               else InvalidCredentials
  {
    var f := FirstMatch(users, (u: User) => ActiveNamed(u, username));
    assert f == Some(i);
    var g := FirstMatch(malls, (m: Mall) => m.id == users[i].mallId);
    assert forall j :: 0 <= j < |malls| && j != k ==> malls[j].id != users[i].mallId;
    assert g == Some(k);
  }

  /** A user created in a mall, with no active namesake before it, can log in. */
  lemma CreatedUserLogsIn(users: seq<User>, malls: seq<Mall>, u: User, password: string,
                          salt: string, s: Session, k: nat)
    requires forall i :: 0 <= i < |users| ==> !ActiveNamed(users[i], u.username)
    requires u.isActive == 1 && u.password == HashPassword(password, salt)
    requires MallIdsUnique(malls) && k < |malls| && malls[k].id == u.mallId
    ensures StaffLogin(users + [u], malls, s, u.username, password)
            == LoggedIn(StaffSession(s, u, malls[k]))
  {
    var us := users + [u];
    forall j | 0 <= j < |users| ensures !ActiveNamed(us[j], u.username) {
      assert us[j] == users[j];
    }
    StaffLoginDecided(us, malls, s, u.username, password, |users|, k);
  }

  // ---------------------------------------------------------------------------
  // Barcode lookup (GET /api/scan-product/<barcode>)
  // ---------------------------------------------------------------------------

  datatype ScanOutcome = Found(product: ScannedProduct) | ProductNotFound | ScanUnauthorized

  /** The JSON view of a product row. */
  function View(p: Product): ScannedProduct
  {
    ScannedProduct(p.id, p.name, p.price, p.stock)
  }

  /** The lookup filter: the product belongs to the mall and carries the barcode. */
  predicate InMallWithBarcode(p: Product, mallId: int, barcode: string)
  {
    p.mallId == mallId && p.barcode == barcode
  }

  /**
   * Barcode lookup, scoped to the session's mall: it answers with a product of
   * that mall carrying that barcode (the first of them), never with a product
   * of another mall, and answers not-found exactly when the mall has none.
   */
  function ScanProduct(products: seq<Product>, s: Session, barcode: string): (r: ScanOutcome)
    ensures r == ScanUnauthorized <==> s.mallId.None?
    ensures r.Found? ==>
      exists i :: 0 <= i < |products| && InMallWithBarcode(products[i], s.mallId.value, barcode)
        && (forall j :: 0 <= j < i ==> !InMallWithBarcode(products[j], s.mallId.value, barcode))
        && r.product == View(products[i])
    ensures r == ProductNotFound <==>
      s.mallId.Some? && forall i :: 0 <= i < |products| ==> !InMallWithBarcode(products[i], s.mallId.value, barcode)
  {
    match s.mallId
    case None => ScanUnauthorized
    case Some(m) =>
      match FirstMatch(products, (p: Product) => InMallWithBarcode(p, m, barcode))
      case None => ProductNotFound
      case Some(i) => Found(View(products[i]))
  }

  /**
   * A product inserted with a barcode its mall did not have yet is what a scan
   * of that barcode in that mall finds; a barcode the mall already had keeps
   * answering with the older row.
   */
  lemma AddedProductScanned(products: seq<Product>, p: Product, s: Session, barcode: string)
    requires s.mallId == Some(p.mallId)
    ensures (forall i :: 0 <= i < |products| ==> !InMallWithBarcode(products[i], p.mallId, p.barcode)) ==>
      ScanProduct(products + [p], s, p.barcode) == Found(View(p))
    ensures ScanProduct(products, s, barcode).Found? ==>
      ScanProduct(products + [p], s, barcode) == ScanProduct(products, s, barcode)
  {
    var ps := products + [p];
    assert forall j :: 0 <= j < |products| ==> ps[j] == products[j];
    if forall i :: 0 <= i < |products| ==> !InMallWithBarcode(products[i], p.mallId, p.barcode) {
      var f := FirstMatch(ps, (q: Product) => InMallWithBarcode(q, p.mallId, p.barcode));
      assert ps[|products|] == p;
      assert f == Some(|products|);
    }
    var g := FirstMatch(products, (q: Product) => InMallWithBarcode(q, p.mallId, barcode));
    if g.Some? {
      var h := FirstMatch(ps, (q: Product) => InMallWithBarcode(q, p.mallId, barcode));
      assert h == g;
    }
  }

  // ---------------------------------------------------------------------------
  // Checkout (POST /api/complete-transaction): what its writes amount to
  // ---------------------------------------------------------------------------

  /** The item rows the loop inserts, ids from `firstId` on, one per cart line in order. */
  function ItemRows(transactionId: int, firstId: int, lines: seq<LineItem>): seq<TransactionItem>
    decreases |lines|
  {
    if |lines| == 0 then []
    else
      var last := lines[|lines| - 1];
      ItemRows(transactionId, firstId, lines[..|lines| - 1])
        + [TransactionItem(firstId + |lines| - 1, transactionId, last.productId, last.quantity, last.price)]
  }

  /** The item rows copy the cart verbatim, in order, under the new transaction id. */
  lemma {:induction false} ItemRowsCopyCart(transactionId: int, firstId: int, lines: seq<LineItem>)
    ensures |ItemRows(transactionId, firstId, lines)| == |lines|
    ensures forall k :: 0 <= k < |lines| ==>
      ItemRows(transactionId, firstId, lines)[k]
        == TransactionItem(firstId + k, transactionId, lines[k].productId, lines[k].quantity, lines[k].price)
    decreases |lines|
  {
    if |lines| > 0 {
      ItemRowsCopyCart(transactionId, firstId, lines[..|lines| - 1]);
    }
  }

  /** The stock update of one cart line: every row with the product id loses the quantity, with no lower bound and no mall filter. */
  function DecrementStock(products: seq<Product>, productId: int, quantity: int): (r: seq<Product>)
    ensures |r| == |products|
    ensures forall k :: 0 <= k < |r| ==> r[k].id == products[k].id
  {
    seq(|products|, k requires 0 <= k < |products| =>
      if products[k].id == productId then products[k].(stock := products[k].stock - quantity)
      else products[k])
  }

  /** The products table after the checkout loop's updates, in order. */
  function ApplyCheckout(products: seq<Product>, lines: seq<LineItem>): seq<Product>
    decreases |lines|
  {
    if |lines| == 0 then products
    else
      var last := lines[|lines| - 1];
      DecrementStock(ApplyCheckout(products, lines[..|lines| - 1]), last.productId, last.quantity)
  }

  /** The sum of the quantities of the cart lines naming `productId`. */
  function QuantityFor(lines: seq<LineItem>, productId: int): int
    decreases |lines|
  {
    if |lines| == 0 then 0
    else
      var last := lines[|lines| - 1];
      QuantityFor(lines[..|lines| - 1], productId) + (if last.productId == productId then last.quantity else 0)
  }

  /**
   * Each product's stock drops by the sum of the quantities of the lines that
   * name it (possibly below zero); every other column, and every product the
   * cart does not name, is unchanged.
   */
  lemma {:induction false} CheckoutStock(products: seq<Product>, lines: seq<LineItem>)
    ensures |ApplyCheckout(products, lines)| == |products|
    ensures forall k :: 0 <= k < |products| ==>
      ApplyCheckout(products, lines)[k]
        == products[k].(stock := products[k].stock - QuantityFor(lines, products[k].id))
    decreases |lines|
  {
    if |lines| > 0 {
      CheckoutStock(products, lines[..|lines| - 1]);
    }
  }

  /** A product the cart does not name keeps its row. */
  lemma {:induction false} UnnamedProductUnchanged(products: seq<Product>, lines: seq<LineItem>, k: nat)
    requires k < |products|
    requires forall l :: 0 <= l < |lines| ==> lines[l].productId != products[k].id
    ensures |ApplyCheckout(products, lines)| == |products|
    ensures ApplyCheckout(products, lines)[k] == products[k]
    decreases |lines|
  {
    if |lines| > 0 {
      UnnamedProductUnchanged(products, lines[..|lines| - 1], k);
    }
  }

  /** The source has no stock guard: a cart may drive a stock below zero. */
  lemma CheckoutCanOversell()
    ensures ApplyCheckout([Product(1, 1, "123", "Widget", 999, 2, "")], [LineItem(1, 3, 999)])
            == [Product(1, 1, "123", "Widget", 999, -1, "")]
  {
  }

  /**
   * The update has no mall filter: whatever mall `m` the checkout runs in, a
   * product of another mall loses every unit the cart names it with, just
   * like a product of `m`.
   */
  lemma CheckoutReachesOtherMall(products: seq<Product>, lines: seq<LineItem>, m: int, k: nat)
    requires k < |products| && products[k].mallId != m
    ensures |ApplyCheckout(products, lines)| == |products|
    ensures ApplyCheckout(products, lines)[k].stock == products[k].stock - QuantityFor(lines, products[k].id)
    ensures ApplyCheckout(products, lines)[k].mallId == products[k].mallId
  {
    CheckoutStock(products, lines);
  }

  /** Appending a transaction row keeps every existing item's reference. */
  lemma ReferencesSurviveInsert(items: seq<TransactionItem>, txns: seq<Transaction>, t: Transaction)
    requires ItemsReferenceTransactions(items, txns)
    ensures ItemsReferenceTransactions(items, txns + [t])
  {
    var ts := txns + [t];
    forall k | 0 <= k < |items|
      ensures TransactionExists(ts, items[k].transactionId)
    {
      var j :| 0 <= j < |txns| && txns[j].id == items[k].transactionId;
      assert ts[j] == txns[j];
    }
  }

  /** An item row naming an existing transaction keeps the references intact. */
  lemma ReferencesSurviveItem(items: seq<TransactionItem>, txns: seq<Transaction>, row: TransactionItem, j: nat)
    requires ItemsReferenceTransactions(items, txns)
    requires j < |txns| && txns[j].id == row.transactionId
    ensures ItemsReferenceTransactions(items + [row], txns)
  {
    var its := items + [row];
    forall k | 0 <= k < |its|
      ensures TransactionExists(txns, its[k].transactionId)
    {
      if k < |items| {
        assert its[k] == items[k];
      }
    }
  }

  /** The stock update keeps the products' ids, hence their AUTOINCREMENT discipline. */
  lemma DecrementKeepsKeys(products: seq<Product>, productId: int, quantity: int, last: int)
    requires KeysFresh(products, ProductKey, last)
    ensures KeysFresh(DecrementStock(products, productId, quantity), ProductKey, last)
  {
  }

  /** One turn of the checkout loop extends both spec functions by one line. */
  lemma CheckoutStep(transactionId: int, firstId: int, products: seq<Product>, lines: seq<LineItem>, i: nat)
    requires i < |lines|
    ensures ItemRows(transactionId, firstId, lines[..i + 1])
            == ItemRows(transactionId, firstId, lines[..i])
               + [TransactionItem(firstId + i, transactionId, lines[i].productId, lines[i].quantity, lines[i].price)]
    ensures ApplyCheckout(products, lines[..i + 1])
            == DecrementStock(ApplyCheckout(products, lines[..i]), lines[i].productId, lines[i].quantity)
  {
    assert lines[..i + 1][..i] == lines[..i];
  }

  /**
   * One turn of the checkout loop as a whole: appending the next item row and
   * lowering the next product's stock keeps the tables' discipline and extends
   * the two spec functions by one line.
   */
  lemma CheckoutTurn(items0: seq<TransactionItem>, products0: seq<Product>, txns: seq<Transaction>,
                     items: seq<TransactionItem>, products: seq<Product>, itemSeq: int, productSeq: int,
                     tid: int, first: int, lines: seq<LineItem>, i: nat)
    requires i < |lines| && itemSeq == first - 1 + i
    requires |txns| > 0 && txns[|txns| - 1].id == tid
    requires items == items0 + ItemRows(tid, first, lines[..i])
    requires products == ApplyCheckout(products0, lines[..i])
    requires KeysFresh(items, ItemKey, itemSeq) && KeysFresh(products, ProductKey, productSeq)
    requires ItemsReferenceTransactions(items, txns)
    ensures var row := TransactionItem(itemSeq + 1, tid, lines[i].productId, lines[i].quantity, lines[i].price);
            var products' := DecrementStock(products, lines[i].productId, lines[i].quantity);
            && items + [row] == items0 + ItemRows(tid, first, lines[..i + 1])
            && products' == ApplyCheckout(products0, lines[..i + 1])
            && KeysFresh(items + [row], ItemKey, itemSeq + 1)
            && KeysFresh(products', ProductKey, productSeq)
            && ItemsReferenceTransactions(items + [row], txns)
  {
    var row := TransactionItem(itemSeq + 1, tid, lines[i].productId, lines[i].quantity, lines[i].price);
    KeysFreshAppend(items, ItemKey, itemSeq, row);
    ReferencesSurviveItem(items, txns, row, |txns| - 1);
    DecrementKeepsKeys(products, lines[i].productId, lines[i].quantity, productSeq);
    CheckoutStep(tid, first, products0, lines, i);
  }

  datatype RegisterOutcome = Registered(mallId: int) | DuplicateCode
  datatype CreateUserOutcome = UserCreated(userId: int) | NotAdmin
  datatype AddProductOutcome = ProductAdded(productId: int) | NotLoggedIn
  datatype CheckoutOutcome = Completed(transactionId: int) | Unauthorized

  /** The store: five tables and the last id each AUTOINCREMENT counter handed out. */
  class Database {
    var malls: seq<Mall>
    var users: seq<User>
    var products: seq<Product>
    var transactions: seq<Transaction>
    var items: seq<TransactionItem>
    var mallSeq: int
    var userSeq: int
    var productSeq: int
    var transactionSeq: int
    var itemSeq: int

    ghost predicate Valid()
      reads this
    {
      && KeysFresh(malls, MallKey, mallSeq)
      && KeysFresh(users, UserKey, userSeq)
      && KeysFresh(products, ProductKey, productSeq)
      && KeysFresh(transactions, TransactionKey, transactionSeq)
      && KeysFresh(items, ItemKey, itemSeq)
      && MallCodesUnique(malls)
      && ItemsReferenceTransactions(items, transactions)
    }

    /** init_db: five empty tables. */
    constructor ()
      ensures Valid()
      ensures malls == [] && users == [] && products == [] && transactions == [] && items == []
    {
      malls, users, products, transactions, items := [], [], [], [], [];
      mallSeq, userSeq, productSeq, transactionSeq, itemSeq := 0, 0, 0, 0, 0;
    }

    /**
     * POST /register: a code already in use fails on the UNIQUE constraint and
     * writes nothing; a fresh code appends exactly one mall row.
     */
    method Register(name: string, code: string, password: string, salt: string,
                    location: string, contact: string) returns (r: RegisterOutcome)
      requires Valid()
      modifies this
      ensures Valid()
      ensures (exists i :: 0 <= i < |old(malls)| && old(malls)[i].code == code) ==>
        r == DuplicateCode && malls == old(malls) && mallSeq == old(mallSeq)
      ensures (forall i :: 0 <= i < |old(malls)| ==> old(malls)[i].code != code) ==>
        && r == Registered(old(mallSeq) + 1)
        && malls == old(malls) + [Mall(old(mallSeq) + 1, name, code, HashPassword(password, salt), location, contact)]
        && mallSeq == old(mallSeq) + 1
      ensures users == old(users) && products == old(products)
      ensures transactions == old(transactions) && items == old(items)
      ensures userSeq == old(userSeq) && productSeq == old(productSeq)
      ensures transactionSeq == old(transactionSeq) && itemSeq == old(itemSeq)
    {
      match FirstMatch(malls, (m: Mall) => m.code == code)
      case Some(i) =>
        assert malls[i].code == code;
        r := DuplicateCode;
      case None =>
        var row := Mall(mallSeq + 1, name, code, HashPassword(password, salt), location, contact);
        KeysFreshAppend(malls, MallKey, mallSeq, row);
        RegisteredMallLogsIn(malls, row, password, salt, NoSession);
        malls := malls + [row];
        mallSeq := mallSeq + 1;
        r := Registered(mallSeq);
    }

    /**
     * POST /users: only an admin session with a mall may create a user; the row
     * takes the session's mall and is active.
     */
    method CreateUser(s: Session, username: string, password: string, salt: string,
                      role: string) returns (r: CreateUserOutcome)
      requires Valid()
      modifies this
      ensures Valid()
      ensures !(s.mallId.Some? && s.role == Some("admin")) ==>
        r == NotAdmin && users == old(users) && userSeq == old(userSeq)
      ensures s.mallId.Some? && s.role == Some("admin") ==>
        && r == UserCreated(old(userSeq) + 1)
        && users == old(users) + [User(old(userSeq) + 1, s.mallId.value, username, HashPassword(password, salt), role, 1)]
        && userSeq == old(userSeq) + 1
      ensures malls == old(malls) && products == old(products)
      ensures transactions == old(transactions) && items == old(items)
      ensures mallSeq == old(mallSeq) && productSeq == old(productSeq)
      ensures transactionSeq == old(transactionSeq) && itemSeq == old(itemSeq)
    {
      if s.mallId.None? || s.role != Some("admin") {
        r := NotAdmin;
        return;
      }
      var row := User(userSeq + 1, s.mallId.value, username, HashPassword(password, salt), role, 1);
      KeysFreshAppend(users, UserKey, userSeq, row);
      users := users + [row];
      userSeq := userSeq + 1;
      r := UserCreated(userSeq);
    }

    /** POST /products: a session with a mall appends one product row of that mall. */
    method AddProduct(s: Session, barcode: string, name: string, price: int, stock: int,
                      category: string) returns (r: AddProductOutcome)
      requires Valid()
      modifies this
      ensures Valid()
      ensures s.mallId.None? ==> r == NotLoggedIn && products == old(products) && productSeq == old(productSeq)
      ensures s.mallId.Some? ==>
        && r == ProductAdded(old(productSeq) + 1)
        && products == old(products) + [Product(old(productSeq) + 1, s.mallId.value, barcode, name, price, stock, category)]
        && productSeq == old(productSeq) + 1
      ensures malls == old(malls) && users == old(users)
      ensures transactions == old(transactions) && items == old(items)
      ensures mallSeq == old(mallSeq) && userSeq == old(userSeq)
      ensures transactionSeq == old(transactionSeq) && itemSeq == old(itemSeq)
    {
      if s.mallId.None? {
        r := NotLoggedIn;
        return;
      }
      var row := Product(productSeq + 1, s.mallId.value, barcode, name, price, stock, category);
      KeysFreshAppend(products, ProductKey, productSeq, row);
      products := products + [row];
      productSeq := productSeq + 1;
      r := ProductAdded(productSeq);
    }

    /**
     * The loop of the checkout: for each line in order, one item row under the
     * last transaction row, then the stock update of the product it names.
     */
    method InsertLines(tid: int, lines: seq<LineItem>)
      requires KeysFresh(items, ItemKey, itemSeq) && KeysFresh(products, ProductKey, productSeq)
      requires ItemsReferenceTransactions(items, transactions)
      requires |transactions| > 0 && transactions[|transactions| - 1].id == tid
      modifies this`items, this`itemSeq, this`products
      ensures KeysFresh(items, ItemKey, itemSeq) && KeysFresh(products, ProductKey, productSeq)
      ensures ItemsReferenceTransactions(items, transactions)
      ensures items == old(items) + ItemRows(tid, old(itemSeq) + 1, lines)
      ensures itemSeq == old(itemSeq) + |lines|
      ensures products == ApplyCheckout(old(products), lines)
    {
      var items0, first, products0 := items, itemSeq + 1, products;
      var its, seqNo, ps := items, itemSeq, products;
      var i := 0;
      while i < |lines|
        invariant 0 <= i <= |lines|
        invariant seqNo == first - 1 + i
        invariant its == items0 + ItemRows(tid, first, lines[..i])
        invariant ps == ApplyCheckout(products0, lines[..i])
        invariant KeysFresh(its, ItemKey, seqNo)
        invariant KeysFresh(ps, ProductKey, productSeq)
        invariant ItemsReferenceTransactions(its, transactions)
      {
        var line := lines[i];
        var row := TransactionItem(seqNo + 1, tid, line.productId, line.quantity, line.price);
        CheckoutTurn(items0, products0, transactions, its, ps, seqNo, productSeq,
                     tid, first, lines, i);
        its := its + [row];
        seqNo := seqNo + 1;
        ps := DecrementStock(ps, line.productId, line.quantity);
        i := i + 1;
      }
      assert lines[..i] == lines;
      items, itemSeq, products := its, seqNo, ps;
    }

    /**
     * POST /api/complete-transaction. Without a mall in the session nothing is
     * written. Otherwise one transaction row is appended carrying the client's
     * total verbatim, then for each cart line in order one item row is appended
     * and the named product's stock is lowered; the fresh transaction id is
     * returned. Malls and users are untouched.
     */
    method CompleteTransaction(s: Session, req: CheckoutRequest) returns (r: CheckoutOutcome)
      requires Valid()
      modifies this
      ensures Valid()
      ensures s.mallId.None? ==> r == Unauthorized && unchanged(this)
      ensures s.mallId.Some? ==>
        && r == Completed(old(transactionSeq) + 1)
        && transactions == old(transactions)
             + [Transaction(old(transactionSeq) + 1, s.mallId.value, s.userId, req.total,
                            req.paymentMethod, req.customerName)]
        && transactionSeq == old(transactionSeq) + 1
        && items == old(items) + ItemRows(old(transactionSeq) + 1, old(itemSeq) + 1, req.items)
        && itemSeq == old(itemSeq) + |req.items|
        && products == ApplyCheckout(old(products), req.items)
      ensures malls == old(malls) && users == old(users)
      ensures mallSeq == old(mallSeq) && userSeq == old(userSeq) && productSeq == old(productSeq)
    {
      if s.mallId.None? {
        r := Unauthorized;
        return;
      }
      var tid := transactionSeq + 1;
      var header := Transaction(tid, s.mallId.value, s.userId, req.total, req.paymentMethod, req.customerName);
      KeysFreshAppend(transactions, TransactionKey, transactionSeq, header);
      ReferencesSurviveInsert(items, transactions, header);
      transactions := transactions + [header];
      transactionSeq := tid;
      InsertLines(tid, req.items);
      r := Completed(tid);
    }
  }
}
