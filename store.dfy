/** The document store the controllers work on: products, per-user carts,
    orders and users, with the lookups the controllers make on them. */
module Store {
  import opened Common
  import opened OrderSchema

  /** The product record: the fields the order workflow reads and writes. */
  datatype Product = Product(name: string, price: int, stock: int)

  /** One line of a cart. */
  datatype CartItem = CartItem(productId: ProductId, quantity: int)

  /** A user record; the Option fields are unset (`undefined`) when None. */
  datatype User = User(
    id: UserId,
    email: string,
    password: string,
    name: string,
    role: string,
    isVerified: bool,
    verificationToken: Option<string>,
    verificationTokenExpires: Option<int>,
    resetPasswordToken: Option<string>,
    resetPasswordExpires: Option<int>)

  /** The collections; each controller operation updates them in place. Users are
      kept in collection order, so that `findOne` means "the first match". */
  class Database {
    var products: map<ProductId, Product>
    var carts: map<UserId, seq<CartItem>>
    var orders: map<OrderId, Order>
    var users: seq<User>
  }

  /** The index of the first user satisfying `p`, as `findOne` returns it. */
  function FindFirst(users: seq<User>, p: User -> bool): (r: Option<nat>)
    ensures r.Some? ==> r.value < |users| && p(users[r.value])
    ensures r.Some? ==> forall j :: 0 <= j < r.value ==> !p(users[j])
    ensures r.None? ==> forall j :: 0 <= j < |users| ==> !p(users[j])
  {
    if users == [] then None
    else if p(users[0]) then Some(0)
    else
      match FindFirst(users[1..], p)
      case None => None
      case Some(k) => Some(k + 1)
  }

  /** `User.findById(id)`: the first user with that id. */
  function FindById(users: seq<User>, id: UserId): (r: Option<nat>)
    ensures r.Some? ==> r.value < |users| && users[r.value].id == id
    ensures r.None? <==> forall j :: 0 <= j < |users| ==> users[j].id != id
  {
    FindFirst(users, (u: User) => u.id == id)
  }

  /** `User.findOne({ email })`: the first user with that email. */
  function FindByEmail(users: seq<User>, email: string): (r: Option<nat>)
    ensures r.Some? ==> r.value < |users| && users[r.value].email == email
    ensures r.Some? ==> forall j :: 0 <= j < r.value ==> users[j].email != email
    ensures r.None? <==> forall j :: 0 <= j < |users| ==> users[j].email != email
  {
    FindFirst(users, (u: User) => u.email == email)
  }

  /** No two users share an email address. */
  predicate EmailsUnique(users: seq<User>)
  {
    forall i, j :: 0 <= i < j < |users| ==> users[i].email != users[j].email
  }

  /** The profile edit of both profile endpoints: each new value replaces the old
      one unless it is empty or absent (`name || user.name`). */
  function WithProfile(u: User, name: string, email: string): (v: User)
    ensures v.name == (if name != "" then name else u.name)
    ensures v.email == (if email != "" then email else u.email)
    ensures v.(name := u.name, email := u.email) == u
  {
    u.(name := Or(name, u.name), email := Or(email, u.email))
  }

  /** Empty values change nothing, and applying the same edit twice is applying it once. */
  lemma WithProfileFallback(u: User, name: string, email: string)
    ensures WithProfile(u, "", "") == u
    ensures WithProfile(WithProfile(u, name, email), name, email) == WithProfile(u, name, email)
  {
  }

  /** The total quantity a list of cart lines asks for one product. */
  function QtyOf(items: seq<CartItem>, pid: ProductId): int
  {
    if items == [] then 0
    else (if items[0].productId == pid then items[0].quantity else 0) + QtyOf(items[1..], pid)
  }

  /** What every stored cart satisfies: positive quantities, named products, and
      at most one line per product. */
  predicate CartWellFormed(items: seq<CartItem>)
  {
    && (forall i :: 0 <= i < |items| ==> items[i].quantity >= 1 && items[i].productId != "")
    && (forall i, j :: 0 <= i < j < |items| ==> items[i].productId != items[j].productId)
  }

  predicate CartsWellFormed(carts: map<UserId, seq<CartItem>>)
  {
    forall u :: u in carts ==> CartWellFormed(carts[u])
  }

  predicate StockNonNegative(products: map<ProductId, Product>)
  {
    forall id :: id in products ==> products[id].stock >= 0
  }

  lemma {:induction false} QtyOfNonNegative(items: seq<CartItem>, pid: ProductId)
    requires forall i :: 0 <= i < |items| ==> items[i].quantity >= 0
    ensures QtyOf(items, pid) >= 0
  {
    if items != [] {
      QtyOfNonNegative(items[1..], pid);
    }
  }

  /** A product that no line names is asked for in quantity zero. */
  lemma {:induction false} QtyOfAbsent(items: seq<CartItem>, pid: ProductId)
    requires forall i :: 0 <= i < |items| ==> items[i].productId != pid
    ensures QtyOf(items, pid) == 0
  {
    if items != [] {
      QtyOfAbsent(items[1..], pid);
    }
  }

  lemma {:induction false} QtyOfAppend(items: seq<CartItem>, x: CartItem, pid: ProductId)
    ensures QtyOf(items + [x], pid) == QtyOf(items, pid) + (if x.productId == pid then x.quantity else 0)
  {
    if items == [] {
      assert items + [x] == [x];
    } else {
      assert (items + [x])[1..] == items[1..] + [x];
      QtyOfAppend(items[1..], x, pid);
    }
  }

  /** Changing the quantity of line k changes the total of its product by the same amount. */
  lemma {:induction false} QtyOfUpdate(items: seq<CartItem>, k: nat, q: int, pid: ProductId)
    requires k < |items|
    ensures QtyOf(items[k := items[k].(quantity := q)], pid)
         == QtyOf(items, pid) + (if items[k].productId == pid then q - items[k].quantity else 0)
  {
    var updated := items[k := items[k].(quantity := q)];
    if k > 0 {
      assert updated[1..] == items[1..][k - 1 := items[k].(quantity := q)];
      QtyOfUpdate(items[1..], k - 1, q, pid);
    } else {
      assert updated[1..] == items[1..];
    }
  }
}
