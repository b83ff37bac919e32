/** The three tables of the store (`users`, `orders`, `accounts`), their column
    defaults, their `to_dict` views and the password helpers. The foreign
    libraries (bcrypt, Fernet, `isoformat`) are function parameters. */
module Models {
  import opened Wrappers

  /** A point in time, in seconds (the value of `datetime.utcnow()`). */
  type Time = int

  /** The salt bcrypt's `gensalt()` draws at random. */
  type Salt = string

  const ROLE_CLIENT := "client"
  const ROLE_ADMIN := "admin"
  const STATUS_PENDING := "pending"

  /** A row of `users`. */
  datatype User = User(id: int, email: string, passwordHash: string, role: string, createdAt: Time)

  /** A row of `orders`; `amount` is in cents. */
  datatype Order = Order(
    id: int,
    userId: int,
    stripeSessionId: Option<string>,
    stripePaymentId: Option<string>,
    plan: string,
    amount: int,
    status: string,
    createdAt: Time)

  /** A row of `accounts`: an Instagram account being warmed up. */
  datatype Account = Account(
    id: int,
    userId: int,
    orderId: Option<int>,
    username: string,
    encryptedPassword: Option<string>,
    niche: string,
    status: string,
    currentDay: int,
    progressPercentage: int,
    reelsViewed: int,
    accountsFollowed: int,
    commentsLeft: int,
    proxyId: Option<string>,
    createdAt: Time,
    startedAt: Option<Time>,
    completedAt: Option<Time>)

  // ---------------------------------------------------------------- new rows

  /** `User(...)`: a column left out of the constructor takes its default. The
      hash is the one `set_password` stores right after construction. */
  function NewUser(id: int, email: string, passwordHash: string, role: Option<string>, now: Time): User {
    User(id, email, passwordHash, role.GetOr(ROLE_CLIENT), now)
  }

  /** `Order(...)` with the columns the handlers pass; the rest take their defaults. */
  function NewOrder(id: int, userId: int, stripeSessionId: Option<string>, plan: string, amount: int,
                    status: Option<string>, now: Time): Order {
    Order(id, userId, stripeSessionId, None, plan, amount, status.GetOr(STATUS_PENDING), now)
  }

  /** `Account(...)` with the columns the handlers pass; the rest take their defaults. */
  function NewAccount(id: int, userId: int, username: string, niche: string, status: Option<string>,
                      currentDay: Option<int>, progressPercentage: Option<int>, now: Time): Account {
    Account(id, userId, None, username, None, niche, status.GetOr(STATUS_PENDING),
            currentDay.GetOr(0), progressPercentage.GetOr(0), 0, 0, 0, None, now, None, None)
  }

  /** The column defaults: role `client`, order status `pending`, and an account
      `pending` on day 0 at 0 percent with no activity and no proxy. */
  lemma ColumnDefaults(id: int, userId: int, email: string, hash: string, plan: string, amount: int,
                       username: string, niche: string, now: Time)
    ensures NewUser(id, email, hash, None, now).role == ROLE_CLIENT
    ensures NewOrder(id, userId, None, plan, amount, None, now).status == STATUS_PENDING
    ensures NewOrder(id, userId, None, plan, amount, None, now).stripePaymentId == None
    ensures var a := NewAccount(id, userId, username, niche, None, None, None, now);
      && a.status == STATUS_PENDING && a.currentDay == 0 && a.progressPercentage == 0
      && a.reelsViewed == 0 && a.accountsFollowed == 0 && a.commentsLeft == 0
      && a.proxyId.None? && a.startedAt.None? && a.completedAt.None? && a.orderId.None?
      && a.encryptedPassword.None?
  {
  }

  // ---------------------------------------------------------------- to_dict

  datatype UserDict = UserDict(id: int, email: string, role: string, isAdmin: bool, createdAt: string)

  /** `User.to_dict`: `is_admin` is derived from the role. */
  function UserToDict(u: User, iso: Time -> string): (d: UserDict)
    ensures d.isAdmin <==> u.role == ROLE_ADMIN
    ensures d.id == u.id && d.email == u.email && d.role == u.role
  {
    UserDict(u.id, u.email, u.role, u.role == ROLE_ADMIN, iso(u.createdAt))
  }

  /** `Order.to_dict`, with the amount kept in cents. */
  datatype OrderDict = OrderDict(id: int, plan: string, amountCents: int, status: string, createdAt: string)

  function OrderToDict(o: Order, iso: Time -> string): OrderDict {
    OrderDict(o.id, o.plan, o.amount, o.status, iso(o.createdAt))
  }

  datatype AccountDict = AccountDict(
    id: int, username: string, niche: string, status: string, currentDay: int,
    progressPercentage: int, reelsViewed: int, accountsFollowed: int, commentsLeft: int,
    createdAt: string, startedAt: Option<string>, completedAt: Option<string>)

  /** `isoformat()` of an optional timestamp, `None` when it is absent. */
  function IsoOrNone(t: Option<Time>, iso: Time -> string): (r: Option<string>)
    ensures r.None? <==> t.None?
    ensures t.Some? ==> r == Some(iso(t.value))
  {
    match t
    case None => None
    case Some(v) => Some(iso(v))
  }

  /** `Account.to_dict`: the two optional timestamps map to `None` when absent. */
  function AccountToDict(a: Account, iso: Time -> string): (d: AccountDict)
    ensures d.startedAt.None? <==> a.startedAt.None?
    ensures d.completedAt.None? <==> a.completedAt.None?
    ensures d.id == a.id && d.username == a.username && d.status == a.status
  {
    AccountDict(a.id, a.username, a.niche, a.status, a.currentDay, a.progressPercentage,
                a.reelsViewed, a.accountsFollowed, a.commentsLeft, iso(a.createdAt),
                IsoOrNone(a.startedAt, iso), IsoOrNone(a.completedAt, iso))
  }

  // ---------------------------------------------------------------- passwords

  /** bcrypt's `hashpw` and `checkpw`, left abstract. */
  datatype Hasher = Hasher(hashpw: (string, Salt) -> string, checkpw: (string, string) -> bool)

  /** What bcrypt promises: a password checks against any hash made from it. */
  ghost predicate SoundHasher(h: Hasher) {
    forall p, s :: h.checkpw(p, h.hashpw(p, s))
  }

  /** `set_password`: store the hash of `password` under a fresh salt. */
  function SetPassword(u: User, password: string, salt: Salt, h: Hasher): User {
    u.(passwordHash := h.hashpw(password, salt))
  }

  /** `check_password`. */
  predicate CheckPassword(u: User, password: string, h: Hasher) {
    h.checkpw(password, u.passwordHash)
  }

  /** After `set_password(p)`, `check_password(p)` holds, and nothing but the hash
      changed. */
  lemma CheckAfterSet(u: User, password: string, salt: Salt, h: Hasher)
    requires SoundHasher(h)
    ensures CheckPassword(SetPassword(u, password, salt, h), password, h)
    ensures SetPassword(u, password, salt, h).(passwordHash := u.passwordHash) == u
  {
  }

  /** `encrypt_password`: `None` for a missing or empty password. */
  function EncryptPassword(password: Option<string>, encrypt: string -> string): (r: Option<string>)
    ensures r.None? <==> (password.None? || password.value == "")
  {
    if password.None? || password.value == "" then None else Some(encrypt(password.value))
  }

  /** `decrypt_password`: `None` for a missing or empty ciphertext. */
  function DecryptPassword(encrypted: Option<string>, decrypt: string -> string): (r: Option<string>)
    ensures r.None? <==> (encrypted.None? || encrypted.value == "")
  {
    if encrypted.None? || encrypted.value == "" then None else Some(decrypt(encrypted.value))
  }

  /** With a cipher whose tokens are never empty and which decrypts what it
      encrypts, the two helpers give back every non-empty password and turn a
      missing or empty one into `None`. */
  lemma DecryptEncrypt(password: Option<string>, encrypt: string -> string, decrypt: string -> string)
    requires forall x :: encrypt(x) != "" && decrypt(encrypt(x)) == x
    ensures DecryptPassword(EncryptPassword(password, encrypt), decrypt)
      == if password.None? || password.value == "" then None else password
  {
  }
}
