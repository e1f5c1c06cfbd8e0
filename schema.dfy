/**
 * The rows of the five tables of the point-of-sale database (malls, users,
 * products, transactions, transaction_items), the request-scoped session,
 * the abstract password hash, and two helpers that stand for what SQLite does
 * for the handlers: `FirstMatch` is `fetchone()` over a `WHERE` clause and
 * `KeysFresh` is the `INTEGER PRIMARY KEY AUTOINCREMENT` discipline.
 *
 * Money (prices, totals) is in integer cents.
 */
module Schema {

  datatype Option<+T> = None | Some(value: T)

  /**
   * A salted password hash. Hashing is modelled as an ideal, collision-free
   * function: the value keeps the password it was computed from only so that
   * `CheckPassword` can be defined; no handler ever returns it.
   */
  datatype PasswordHash = PasswordHash(salt: string, preimage: string)

  /** generate_password_hash; the random salt is a parameter. */
  function HashPassword(password: string, salt: string): (h: PasswordHash)
    ensures forall attempt :: CheckPassword(h, attempt) <==> attempt == password
  {
    PasswordHash(salt, password)
  }

  /** check_password_hash */
  predicate CheckPassword(h: PasswordHash, attempt: string)
  {
    h.preimage == attempt
  }

  /** A row of `malls`; `code` is the column `mall_id TEXT UNIQUE`. */
  datatype Mall = Mall(id: int, name: string, code: string, password: PasswordHash,
                       location: string, contact: string)

  /** A row of `users`; `isActive` is the integer column `is_active`. */
  datatype User = User(id: int, mallId: int, username: string, password: PasswordHash,
                       role: string, isActive: int)

  /** A row of `products`. */
  datatype Product = Product(id: int, mallId: int, barcode: string, name: string,
                             price: int, stock: int, category: string)

  /** A row of `transactions`; `userId` is NULL for a session without a staff user. */
  datatype Transaction = Transaction(id: int, mallId: int, userId: Option<int>,
                                     totalAmount: int, paymentMethod: string,
                                     customerName: string)

  /** A row of `transaction_items`. */
  datatype TransactionItem = TransactionItem(id: int, transactionId: int, productId: int,
                                             quantity: int, price: int)

  /** The keys of the Flask session that the handlers read and write. */
  datatype Session = Session(mallId: Option<int>, mallName: Option<string>,
                             userId: Option<int>, role: Option<string>)

  const NoSession := Session(None, None, None, None)

  /** One entry of the `items` array of a checkout request: `{id, quantity, price}`. */
  datatype LineItem = LineItem(productId: int, quantity: int, price: int)

  /** The JSON body of `POST /api/complete-transaction`. */
  datatype CheckoutRequest = CheckoutRequest(items: seq<LineItem>, total: int,
                                             paymentMethod: string, customerName: string)

  /** The JSON answer of `GET /api/scan-product/<barcode>`: `{id, name, price, stock}`. */
  datatype ScannedProduct = ScannedProduct(id: int, name: string, price: int, stock: int)

  /** `fetchone()` over rows filtered by `p`: the index of the first row satisfying `p`. */
  function FirstMatch<T>(rows: seq<T>, p: T -> bool): (r: Option<nat>)
    ensures r.Some? ==> r.value < |rows| && p(rows[r.value])
    ensures r.Some? ==> forall j :: 0 <= j < r.value ==> !p(rows[j])
    ensures r.None? ==> forall j :: 0 <= j < |rows| ==> !p(rows[j])
    decreases |rows|
  {
    if |rows| == 0 then None
    else if p(rows[0]) then Some(0)
    else match FirstMatch(rows[1..], p)
      case None => None
      case Some(k) => Some(k + 1)
  }

  /**
   * The AUTOINCREMENT discipline of a table whose sqlite_sequence entry is
   * `last`: ids are positive, strictly increasing in row order, and at most `last`,
   * which is never negative.
   */
  ghost predicate KeysFresh<T>(rows: seq<T>, key: T -> int, last: int)
  {
    && last >= 0
    && (forall i, j :: 0 <= i < j < |rows| ==> key(rows[i]) < key(rows[j]))
    && (forall i :: 0 <= i < |rows| ==> 1 <= key(rows[i]) <= last)
  }

  /** Inserting a row with the next id keeps the discipline. */
  lemma KeysFreshAppend<T>(rows: seq<T>, key: T -> int, last: int, row: T)
    requires KeysFresh(rows, key, last) && key(row) == last + 1
    ensures KeysFresh(rows + [row], key, last + 1)
  {
  }

  function MallKey(m: Mall): int { m.id }
  function UserKey(u: User): int { u.id }
  function ProductKey(p: Product): int { p.id }
  function TransactionKey(t: Transaction): int { t.id }
  function ItemKey(ti: TransactionItem): int { ti.id }
}
