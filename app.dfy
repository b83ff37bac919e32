/** The HTTP handlers of the backend as a sequential state machine over one
    in-memory store. Each handler is a transaction: the store changes only where
    the handler reaches `db.session.commit()`; every earlier `return`, including
    one after the new user of a manual order is flushed, leaves the store as it
    was. Money is kept in integer cents. */
module App {
  import opened Wrappers
  import opened Seqs
  import opened Text
  import opened Models
  import opened Auth

  // ---------------------------------------------------------------- plans

  predicate IsPlanName(plan: string) {
    plan == "one_time" || plan == "starter" || plan == "growth"
  }

  /** `plan in ['one_time', 'starter', 'growth']` for a request field that may be absent. */
  predicate IsPlan(plan: Option<string>) {
    plan.Some? && IsPlanName(plan.value)
  }

  /** The `amounts` table, in cents. */
  function Price(plan: string): (cents: int)
    requires IsPlanName(plan)
    ensures 7500 <= cents <= 49900
  {
    if plan == "one_time" then 7500 else if plan == "starter" then 29900 else 49900
  }

  // ---------------------------------------------------------------- requests and responses

  /** A handler's answer: the status code and, for the error answers the handler
      writes itself, the `error` message. Success bodies are not modelled beyond
      the token (see the `to_dict` views in `Models`). */
  datatype Response = Response(status: int, error: Option<string>)

  function Fail(status: int, error: string): Response {
    Response(status, Some(error))
  }

  function Done(status: int): Response {
    Response(status, None)
  }

  /** An exception the handler does not catch; Flask answers 500 with its own page. */
  const SERVER_ERROR := Response(500, None)

  /** SQLite integers are 64-bit two's complement: binding a Python `int`
      outside this range in a query or at commit raises `OverflowError`, which
      the handlers do not catch. */
  const INT64_MIN := -0x8000_0000_0000_0000
  const INT64_MAX := 0x7FFF_FFFF_FFFF_FFFF

  predicate FitsInt64(n: int) {
    INT64_MIN <= n <= INT64_MAX
  }

  function Denied(o: Outcome): Response
    requires o.Deny?
  {
    Fail(o.status, o.error)
  }

  /** Python truthiness of a string field of the JSON body: present and non-empty. */
  predicate Given(v: Option<string>) {
    v.Some? && v.value != ""
  }

  /** The foreign collaborators of a request: JWT decoding and encoding, bcrypt,
      `isoformat` and the clock. */
  datatype Env = Env(decode: string -> Option<Claims>, encode: Claims -> string, hasher: Hasher,
                     iso: Time -> string, now: Time)

  /** `current_user['user_id']`; anything but an integer is treated as the
      handler failing (`generate_token` only ever signs integers). */
  function CallerId(c: Claims): Option<int> {
    if "user_id" in c && c["user_id"].JInt? then Some(c["user_id"].num) else None
  }

  // ---------------------------------------------------------------- keys and row predicates

  function UserId(u: User): int { u.id }
  function UserEmail(u: User): string { u.email }
  function OrderId(o: Order): int { o.id }
  function AccountId(a: Account): int { a.id }
  function OrderAmount(o: Order): int { o.amount }

  predicate IsClientUser(u: User) { u.role == ROLE_CLIENT }
  predicate IsPaid(o: Order) { o.status == "paid" }
  predicate IsWarming(a: Account) { a.status == "warming" }
  predicate IsCompletedAccount(a: Account) { a.status == "completed" }

  // ---------------------------------------------------------------- table invariants

  /** Ids are positive primary keys, emails are unique, and a role is `client` or `admin`. */
  ghost predicate ValidUsers(users: seq<User>) {
    && UniqueBy(users, UserId) && UniqueBy(users, UserEmail)
    && forall u :: u in users ==> 1 <= u.id && (u.role == ROLE_CLIENT || u.role == ROLE_ADMIN)
  }

  /** Ids are positive primary keys, and each order is for a known plan at its price. */
  ghost predicate ValidOrders(orders: seq<Order>) {
    && UniqueBy(orders, OrderId)
    && forall o :: o in orders ==> 1 <= o.id && IsPlanName(o.plan) && o.amount == Price(o.plan)
  }

  ghost predicate ValidAccounts(accounts: seq<Account>) {
    && UniqueBy(accounts, AccountId)
    && forall a :: a in accounts ==> 1 <= a.id
  }

  // ---------------------------------------------------------------- queries

  /** `User.query.get(id)`. */
  function UserById(users: seq<User>, id: int): int {
    FirstIndex(users, (u: User) => u.id == id)
  }

  /** `User.query.filter_by(email=email).first()`. */
  function UserByEmail(users: seq<User>, email: string): int {
    FirstIndex(users, (u: User) => u.email == email)
  }

  predicate EmailInUse(users: seq<User>, email: string) {
    exists u :: u in users && u.email == email
  }

  function OrderById(orders: seq<Order>, id: int): int {
    FirstIndex(orders, (o: Order) => o.id == id)
  }

  /** `Order.query.filter_by(stripe_session_id=id).first()`. */
  function OrderBySession(orders: seq<Order>, sessionId: string): int {
    FirstIndex(orders, (o: Order) => o.stripeSessionId == Some(sessionId))
  }

  function AccountById(accounts: seq<Account>, id: int): int {
    FirstIndex(accounts, (a: Account) => a.id == id)
  }

  /** `Order.query.filter_by(user_id=uid, status='paid').first()` is not `None`. */
  predicate HasPaidOrder(orders: seq<Order>, uid: int) {
    exists o :: o in orders && o.userId == uid && o.status == "paid"
  }

  /** `Account.query.filter_by(user_id=uid, username=name).first()` is not `None`. */
  predicate HasAccountNamed(accounts: seq<Account>, uid: int, username: string) {
    exists a :: a in accounts && a.userId == uid && a.username == username
  }

  // ---------------------------------------------------------------- inserts and deletes

  /** `db.session.add(User(...))` followed by a flush: the row gets the next id. */
  function InsertUser(users: seq<User>, email: string, hash: string, role: string, now: Time): (r: seq<User>)
    requires ValidUsers(users) && !EmailInUse(users, email)
    requires role == ROLE_CLIENT || role == ROLE_ADMIN
    ensures ValidUsers(r) && EmailInUse(r, email)
    ensures r == users + [NewUser(NextId(users, UserId), email, hash, Some(role), now)]
  {
    var u := NewUser(NextId(users, UserId), email, hash, Some(role), now);
    UniqueByAppend(users, UserId, u);
    UniqueByAppend(users, UserEmail, u);
    assert u in users + [u];
    users + [u]
  }

  /** `db.session.add(Order(...))` with `amount=amounts[plan]`. */
  function InsertOrder(orders: seq<Order>, userId: int, sessionId: Option<string>, plan: string,
                       status: string, now: Time): (r: seq<Order>)
    requires ValidOrders(orders) && IsPlanName(plan)
    ensures ValidOrders(r)
    ensures r == orders + [NewOrder(NextId(orders, OrderId), userId, sessionId, plan, Price(plan), Some(status), now)]
  {
    var o := NewOrder(NextId(orders, OrderId), userId, sessionId, plan, Price(plan), Some(status), now);
    UniqueByAppend(orders, OrderId, o);
    orders + [o]
  }

  /** `db.session.add(Account(...))`. */
  function InsertAccount(accounts: seq<Account>, userId: int, username: string, niche: string,
                         status: Option<string>, currentDay: Option<int>, progress: Option<int>,
                         now: Time): (r: seq<Account>)
    requires ValidAccounts(accounts)
    ensures ValidAccounts(r)
    ensures r == accounts + [NewAccount(NextId(accounts, AccountId), userId, username, niche, status,
                                        currentDay, progress, now)]
  {
    var a := NewAccount(NextId(accounts, AccountId), userId, username, niche, status, currentDay, progress, now);
    UniqueByAppend(accounts, AccountId, a);
    accounts + [a]
  }

  /** `Account.query.filter_by(user_id=uid).delete()`. */
  function AccountsNotOf(accounts: seq<Account>, uid: int): seq<Account> {
    Filter(accounts, (a: Account) => a.userId != uid)
  }

  /** `Order.query.filter_by(user_id=uid).delete()`. */
  function OrdersNotOf(orders: seq<Order>, uid: int): seq<Order> {
    Filter(orders, (o: Order) => o.userId != uid)
  }

  /** `db.session.delete(user)` for the user with id `uid`. */
  function UsersNotWithId(users: seq<User>, uid: int): seq<User> {
    Filter(users, (u: User) => u.id != uid)
  }

  /** `db.session.delete(account)` for the account with id `id`. */
  function AccountsNotWithId(accounts: seq<Account>, id: int): seq<Account> {
    Filter(accounts, IdIsNot(id))
  }

  function IdIsNot(id: int): Account -> bool {
    (a: Account) => a.id != id
  }

  lemma FilterKeepsValidUsers(users: seq<User>, p: User -> bool)
    requires ValidUsers(users)
    ensures ValidUsers(Filter(users, p))
  {
    UniqueByFilter(users, UserId, p);
    UniqueByFilter(users, UserEmail, p);
  }

  lemma FilterKeepsValidOrders(orders: seq<Order>, p: Order -> bool)
    requires ValidOrders(orders)
    ensures ValidOrders(Filter(orders, p))
  {
    UniqueByFilter(orders, OrderId, p);
  }

  lemma FilterKeepsValidAccounts(accounts: seq<Account>, p: Account -> bool)
    requires ValidAccounts(accounts)
    ensures ValidAccounts(Filter(accounts, p))
  {
    UniqueByFilter(accounts, AccountId, p);
  }

  // ---------------------------------------------------------------- field updates

  /** What the Stripe webhook writes into the order of a completed session. */
  function MarkPaid(o: Order, paymentIntent: Option<string>): Order {
    o.(status := "paid", stripePaymentId := paymentIntent)
  }

  /** The keys of a PATCH body for an account that the handler reads; an absent
      key is `None`. */
  datatype AccountPatch = AccountPatch(status: Option<string>, currentDay: Option<int>,
                                       progressPercentage: Option<int>, proxyId: Option<string>)

  /** The integers a PATCH body writes fit SQLite's integers, so the commit
      does not raise. */
  predicate PatchFits(p: AccountPatch) {
    && (p.currentDay.Some? ==> FitsInt64(p.currentDay.value))
    && (p.progressPercentage.Some? ==> FitsInt64(p.progressPercentage.value))
  }

  /** The account after the PATCH: each key present is written, nothing else. */
  function ApplyPatch(a: Account, p: AccountPatch): (r: Account)
    ensures r.status == p.status.GetOr(a.status)
    ensures r.currentDay == p.currentDay.GetOr(a.currentDay)
    ensures r.progressPercentage == p.progressPercentage.GetOr(a.progressPercentage)
    ensures r.proxyId == (if p.proxyId.Some? then p.proxyId else a.proxyId)
    ensures r.(status := a.status, currentDay := a.currentDay,
               progressPercentage := a.progressPercentage, proxyId := a.proxyId) == a
  {
    var a1 := if p.status.Some? then a.(status := p.status.value) else a;
    var a2 := if p.currentDay.Some? then a1.(currentDay := p.currentDay.value) else a1;
    var a3 := if p.progressPercentage.Some? then a2.(progressPercentage := p.progressPercentage.value) else a2;
    if p.proxyId.Some? then a3.(proxyId := p.proxyId) else a3
  }

  /** An empty PATCH changes nothing, and applying the same PATCH twice is
      applying it once. */
  lemma PatchLaws(a: Account, p: AccountPatch)
    ensures ApplyPatch(a, AccountPatch(None, None, None, None)) == a
    ensures ApplyPatch(ApplyPatch(a, p), p) == ApplyPatch(a, p)
  {
  }

  // ---------------------------------------------------------------- usernames

  /** `username.replace('@', '').strip()`. */
  function NormalizeUsername(raw: string): (r: string)
    ensures '@' !in r
    ensures r == [] || (!IsSpace(r[0]) && !IsSpace(r[|r| - 1]))
    ensures StripsTo(RemoveAll(raw, '@'), r)
  {
    var m := RemoveAll(raw, '@');
    StripMeetsStripsTo(m);
    Strip(m)
  }

  /** A normalised username normalises to itself. */
  lemma NormalizeIdempotent(raw: string)
    ensures NormalizeUsername(NormalizeUsername(raw)) == NormalizeUsername(raw)
  {
    var n := NormalizeUsername(raw);
    RemoveAllAbsent(n, '@');
    StripUnchanged(n);
  }

  // ---------------------------------------------------------------- manual orders

  /** The `user_id` field of a manual order: absent (or null), a JSON number or a
      JSON string. */
  datatype JsonId = IdAbsent | IdInt(n: int) | IdStr(s: string)

  /** What `user_id` holds after the conversion step: a falsy value (absent, 0,
      or the empty string) fails `if not user_id`, a truthy one goes through
      `int()`, which may raise. */
  datatype IdConversion = FalsyId | Converted(id: int) | InvalidId

  function ConvertUserId(v: JsonId): (r: IdConversion)
    ensures r.Converted? ==> r.id != 0
  {
    match v
    case IdAbsent => FalsyId
    case IdInt(n) => if n == 0 then FalsyId else Converted(n)
    case IdStr(s) =>
      if s == "" then FalsyId
      else match ParseInt(s)
        case None => InvalidId
        case Some(n) => if n == 0 then FalsyId else Converted(n)
  }

  /** A non-zero id is accepted whether sent as a number or a decimal string;
      zero is rejected both ways; a string that is not an integer is invalid. */
  lemma ConvertUserIdRules(n: int, s: string)
    ensures ConvertUserId(IdInt(n)) == (if n == 0 then FalsyId else Converted(n))
    ensures ConvertUserId(IdStr(ShowInt(n))) == (if n == 0 then FalsyId else Converted(n))
    ensures s != "" && ParseInt(s).None? ==> ConvertUserId(IdStr(s)) == InvalidId
    ensures ConvertUserId(IdAbsent) == FalsyId && ConvertUserId(IdStr("")) == FalsyId
  {
    ParseShowInt(n);
  }

  /** The JSON body of a manual order. */
  datatype ManualOrderRequest = ManualOrderRequest(
    userId: JsonId, plan: Option<string>, paymentMethod: Option<string>,
    createNewUser: bool, email: Option<string>, password: Option<string>)

  /** The fields that decide which user a manual order is for are acceptable. */
  predicate ManualTargetOk(req: ManualOrderRequest, users: seq<User>) {
    if req.createNewUser then Given(req.email) && Given(req.password) && !EmailInUse(users, req.email.value)
    else ConvertUserId(req.userId).Converted?
  }

  /** The `user_id` of the manual order: the new user's id, or the converted one. */
  function ManualTarget(req: ManualOrderRequest, users: seq<User>): int
    requires ManualTargetOk(req, users)
  {
    if req.createNewUser then NextId(users, UserId) else ConvertUserId(req.userId).id
  }

  /** The converted `user_id` of a manual order fits a SQLite integer; the id
      of a new user is allocated by SQLite itself. */
  predicate ManualTargetFits(req: ManualOrderRequest, users: seq<User>)
    requires ManualTargetOk(req, users)
  {
    req.createNewUser || FitsInt64(ManualTarget(req, users))
  }

  /** `f'manual_{payment_method}_{secrets.token_hex(8)}'`, `payment_method`
      defaulting to `crypto`. */
  function ManualSessionId(paymentMethod: Option<string>, nonce: string): string {
    "manual_" + paymentMethod.GetOr("crypto") + "_" + nonce
  }

  // ---------------------------------------------------------------- checkout

  datatype CheckoutSession = CheckoutSession(id: string, url: string)

  /** The outcome of `stripe_api.create_checkout_session`: a session, or an
      exception whose message the handler returns. */
  datatype StripeCall = Created(session: CheckoutSession) | Raised(message: string)

  /** A webhook event whose signature `verify_webhook_signature` accepted. */
  datatype StripeEvent = StripeEvent(kind: string, sessionId: string, paymentIntent: Option<string>)

  const NONE_HAS_NO_EMAIL := "'NoneType' object has no attribute 'email'"

  // ---------------------------------------------------------------- admin views

  /** A row of `GET /api/admin/orders`: `order.to_dict()` plus the owner's email. */
  datatype AdminOrderRow = AdminOrderRow(order: OrderDict, userEmail: string)

  /** A row of `GET /api/admin/accounts`: `account.to_dict()` plus the owner's email. */
  datatype AdminAccountRow = AdminAccountRow(account: AccountDict, userEmail: string)

  /** The figures of `GET /api/admin/stats`; revenue is in cents. */
  datatype Stats = Stats(totalUsers: nat, totalOrders: nat, paidOrders: nat, revenueCents: int,
                         activeAccounts: nat, completedAccounts: nat)

  /** The sum of the paid orders' amounts. */
  function Revenue(orders: seq<Order>): int {
    Sum(Filter(orders, IsPaid), OrderAmount)
  }

  lemma {:induction false} SumOfPrices(orders: seq<Order>)
    requires forall o :: o in orders ==> IsPlanName(o.plan) && o.amount == Price(o.plan)
    ensures 7500 * |orders| <= Sum(orders, OrderAmount) <= 49900 * |orders|
  {
    if orders != [] {
      assert orders[0] in orders;
      SumOfPrices(orders[1..]);
    }
  }

  /** Every paid order brings between 75.00 and 499.00, so the revenue lies
      between those multiples of the number of paid orders. */
  lemma RevenueBounds(orders: seq<Order>)
    requires ValidOrders(orders)
    ensures 7500 * Count(orders, IsPaid) <= Revenue(orders) <= 49900 * Count(orders, IsPaid)
  {
    SumOfPrices(Filter(orders, IsPaid));
  }

  // ================================================================ the store

  class Store {
    var users: seq<User>
    var orders: seq<Order>
    var accounts: seq<Account>

    ghost predicate Valid()
      reads this
    {
      ValidUsers(users) && ValidOrders(orders) && ValidAccounts(accounts)
    }

    /** A fresh database after start-up: only the seeded administrator. */
    constructor (salt: Salt, h: Hasher, now: Time)
      ensures Valid()
      ensures users == [NewUser(1, "admin@warmup.ai", h.hashpw("admin123", salt), Some(ROLE_ADMIN), now)]
      ensures orders == [] && accounts == []
    {
      users := [NewUser(1, "admin@warmup.ai", h.hashpw("admin123", salt), Some(ROLE_ADMIN), now)];
      orders := [];
      accounts := [];
    }

    // ------------------------------------------------------------ auth routes

    /** `POST /api/auth/register`. */
    method Register(email: Option<string>, password: Option<string>, salt: Salt, env: Env)
      returns (r: Response, token: Option<string>)
      requires Valid()
      modifies this
      ensures Valid()
      ensures !Given(email) || !Given(password) ==>
        r == Fail(400, "Email and password required") && token.None? && unchanged(this)
      ensures Given(email) && Given(password) && EmailInUse(old(users), email.value) ==>
        r == Fail(400, "User already exists") && token.None? && unchanged(this)
      ensures Given(email) && Given(password) && !EmailInUse(old(users), email.value) ==>
        && r == Done(201)
        && users == InsertUser(old(users), email.value, env.hasher.hashpw(password.value, salt), ROLE_CLIENT, env.now)
        && orders == old(orders) && accounts == old(accounts)
        && token == Some(env.encode(GenerateToken(NextId(old(users), UserId), email.value, ROLE_CLIENT, env.now)))
    {
      if !Given(email) || !Given(password) {
        return Fail(400, "Email and password required"), None;
      }
      if UserByEmail(users, email.value) >= 0 {
        return Fail(400, "User already exists"), None;
      }
      users := InsertUser(users, email.value, env.hasher.hashpw(password.value, salt), ROLE_CLIENT, env.now);
      var user := users[|users| - 1];
      token := Some(env.encode(GenerateToken(user.id, user.email, user.role, env.now)));
      r := Done(201);
    }

    /** `POST /api/auth/login`. Both failures give the same answer. */
    method Login(email: Option<string>, password: Option<string>, env: Env)
      returns (r: Response, token: Option<string>)
      requires Valid()
      ensures !Given(email) || !Given(password) ==>
        r == Fail(400, "Email and password required") && token.None?
      ensures Given(email) && Given(password) ==>
        (r.status == 200 <==> exists u :: u in users && u.email == email.value && CheckPassword(u, password.value, env.hasher))
      ensures Given(email) && Given(password) && r.status != 200 ==>
        r == Fail(401, "Invalid credentials") && token.None?
      ensures r.status == 200 ==>
        && r == Done(200)
        && exists u :: u in users && u.email == email.value &&
             token == Some(env.encode(GenerateToken(u.id, u.email, u.role, env.now)))
    {
      if !Given(email) || !Given(password) {
        return Fail(400, "Email and password required"), None;
      }
      var i := UserByEmail(users, email.value);
      if i < 0 || !CheckPassword(users[i], password.value, env.hasher) {
        if i >= 0 {
          forall u | u in users && u.email == email.value ensures u == users[i] {
            var j :| 0 <= j < |users| && users[j] == u;
            assert UserEmail(users[j]) == UserEmail(users[i]);
          }
        }
        return Fail(401, "Invalid credentials"), None;
      }
      var user := users[i];
      token := Some(env.encode(GenerateToken(user.id, user.email, user.role, env.now)));
      r := Done(200);
    }

    // ------------------------------------------------------------ checkout

    /** `POST /api/checkout/create`, up to the order it records. */
    method CreateCheckout(header: Option<string>, plan: Option<string>, stripe: StripeCall, env: Env)
      returns (r: Response)
      requires Valid()
      modifies this
      ensures Valid()
      ensures r.status != 200 ==> unchanged(this)
      ensures TokenRequired(header, env.decode).Deny? ==> r == Denied(TokenRequired(header, env.decode))
      ensures TokenRequired(header, env.decode).Allow? ==>
        var caller := CallerId(TokenRequired(header, env.decode).claims);
        && (!IsPlan(plan) ==> r == Fail(400, "Invalid plan"))
        && (IsPlan(plan) && caller.None? ==> r == SERVER_ERROR)
        && (IsPlan(plan) && caller.Some? && UserById(old(users), caller.value) < 0 ==> r == Fail(500, NONE_HAS_NO_EMAIL))
        && (IsPlan(plan) && caller.Some? && UserById(old(users), caller.value) >= 0 ==>
              match stripe
              case Raised(m) => r == Fail(500, m)
              case Created(s) =>
                && r == Done(200) && users == old(users) && accounts == old(accounts)
                && orders == InsertOrder(old(orders), caller.value, Some(s.id), plan.value, STATUS_PENDING, env.now))
    {
      var auth := TokenRequired(header, env.decode);
      if auth.Deny? {
        return Denied(auth);
      }
      if !IsPlan(plan) {
        return Fail(400, "Invalid plan");
      }
      var caller := CallerId(auth.claims);
      if caller.None? {
        return SERVER_ERROR;
      }
      var i := UserById(users, caller.value);
      if i < 0 {
        return Fail(500, NONE_HAS_NO_EMAIL);
      }
      match stripe {
        case Raised(m) =>
          return Fail(500, m);
        case Created(s) =>
          orders := InsertOrder(orders, users[i].id, Some(s.id), plan.value, STATUS_PENDING, env.now);
          r := Done(200);
      }
    }

    /** `POST /api/checkout/create-guest`: the order goes to the user with that
        email, who is created first (with a random password) when there is none. */
    method CreateGuestCheckout(email: Option<string>, plan: Option<string>, stripe: StripeCall,
                               tempPassword: string, salt: Salt, env: Env)
      returns (r: Response)
      requires Valid()
      modifies this
      ensures Valid()
      ensures r.status != 200 ==> unchanged(this)
      ensures !Given(email) || !IsPlan(plan) ==> r == Fail(400, "Invalid request")
      ensures Given(email) && IsPlan(plan) && stripe.Raised? ==> r == Fail(500, stripe.message)
      ensures Given(email) && IsPlan(plan) && stripe.Created? ==>
        && r == Done(200) && accounts == old(accounts)
        && users == (if EmailInUse(old(users), email.value) then old(users)
                     else InsertUser(old(users), email.value, env.hasher.hashpw(tempPassword, salt), ROLE_CLIENT, env.now))
        && var i := UserByEmail(users, email.value);
           0 <= i && orders == InsertOrder(old(orders), users[i].id, Some(stripe.session.id), plan.value, STATUS_PENDING, env.now)
    {
      if !Given(email) || !IsPlan(plan) {
        return Fail(400, "Invalid request");
      }
      if stripe.Raised? {
        return Fail(500, stripe.message);
      }
      var i := UserByEmail(users, email.value);
      if i < 0 {
        users := InsertUser(users, email.value, env.hasher.hashpw(tempPassword, salt), ROLE_CLIENT, env.now);
        i := |users| - 1;
        assert UserByEmail(users, email.value) == i by {
          assert forall j :: 0 <= j < i ==> users[j] == old(users)[j];
        }
      }
      orders := InsertOrder(orders, users[i].id, Some(stripe.session.id), plan.value, STATUS_PENDING, env.now);
      r := Done(200);
    }

    /** `POST /api/webhook/stripe`: a completed checkout marks its order paid. */
    method StripeWebhook(event: Option<StripeEvent>) returns (r: Response)
      requires Valid()
      modifies this
      ensures Valid()
      ensures users == old(users) && accounts == old(accounts)
      ensures event.None? ==> r == Fail(400, "Invalid signature") && orders == old(orders)
      ensures event.Some? ==> r == Done(200)
      ensures event.Some? && event.value.kind != "checkout.session.completed" ==> orders == old(orders)
      ensures event.Some? && event.value.kind == "checkout.session.completed" ==>
        var i := OrderBySession(old(orders), event.value.sessionId);
        orders == if i < 0 then old(orders) else old(orders)[i := MarkPaid(old(orders)[i], event.value.paymentIntent)]
    {
      if event.None? {
        return Fail(400, "Invalid signature");
      }
      if event.value.kind == "checkout.session.completed" {
        var i := OrderBySession(orders, event.value.sessionId);
        if i >= 0 {
          var o := MarkPaid(orders[i], event.value.paymentIntent);
          UniqueByUpdate(orders, OrderId, i, o);
          assert forall x :: x in orders[i := o] ==> x == o || x in orders;
          orders := orders[i := o];
        }
      }
      r := Done(200);
    }

    // ------------------------------------------------------------ client routes

    /** `POST /api/accounts`: a client with a paid order adds an Instagram account. */
    method CreateAccount(header: Option<string>, username: Option<string>, niche: Option<string>, env: Env)
      returns (r: Response)
      requires Valid()
      modifies this
      ensures Valid()
      ensures r.status != 201 ==> unchanged(this)
      ensures TokenRequired(header, env.decode).Deny? ==> r == Denied(TokenRequired(header, env.decode))
      ensures TokenRequired(header, env.decode).Allow? ==>
        var caller := CallerId(TokenRequired(header, env.decode).claims);
        && (caller.None? ==> r == SERVER_ERROR)
        && (caller.Some? && !HasPaidOrder(old(orders), caller.value) ==>
              r == Fail(403, "You need a paid order to add Instagram accounts"))
        && (caller.Some? && HasPaidOrder(old(orders), caller.value) && (!Given(username) || !Given(niche)) ==>
              r == Fail(400, "Username and niche required"))
        && (caller.Some? && HasPaidOrder(old(orders), caller.value) && Given(username) && Given(niche) ==>
              var name := NormalizeUsername(username.value);
              if HasAccountNamed(old(accounts), caller.value, name) then
                r == Fail(400, "This Instagram account is already added")
              else
                && r == Done(201) && users == old(users) && orders == old(orders)
                && accounts == InsertAccount(old(accounts), caller.value, name, niche.value,
                                             Some(STATUS_PENDING), None, None, env.now))
    {
      var auth := TokenRequired(header, env.decode);
      if auth.Deny? {
        return Denied(auth);
      }
      var caller := CallerId(auth.claims);
      if caller.None? {
        return SERVER_ERROR;
      }
      if !HasPaidOrder(orders, caller.value) {
        return Fail(403, "You need a paid order to add Instagram accounts");
      }
      if !Given(username) || !Given(niche) {
        return Fail(400, "Username and niche required");
      }
      var name := NormalizeUsername(username.value);
      if HasAccountNamed(accounts, caller.value, name) {
        return Fail(400, "This Instagram account is already added");
      }
      accounts := InsertAccount(accounts, caller.value, name, niche.value, Some(STATUS_PENDING), None, None, env.now);
      r := Done(201);
    }

    // ------------------------------------------------------------ admin routes

    /** `GET /api/admin/orders`: each order with its owner's email. An order whose
        user does not exist makes `order.user.email` raise. */
    method GetAllOrders(header: Option<string>, env: Env) returns (r: Response, rows: seq<AdminOrderRow>)
      ensures AdminRequired(header, env.decode).Deny? ==> r == Denied(AdminRequired(header, env.decode)) && rows == []
      ensures AdminRequired(header, env.decode).Allow? ==>
        && (r.status == 200 <==> forall k :: 0 <= k < |orders| ==> UserById(users, orders[k].userId) >= 0)
        && (r.status != 200 ==> r == SERVER_ERROR && rows == [])
        && (r.status == 200 ==>
              && r == Done(200) && |rows| == |orders|
              && forall k :: 0 <= k < |orders| ==>
                rows[k] == AdminOrderRow(OrderToDict(orders[k], env.iso), users[UserById(users, orders[k].userId)].email))
    {
      var auth := AdminRequired(header, env.decode);
      if auth.Deny? {
        return Denied(auth), [];
      }
      rows := [];
      var k := 0;
      while k < |orders|
        invariant 0 <= k <= |orders| && |rows| == k
        invariant forall j :: 0 <= j < k ==> UserById(users, orders[j].userId) >= 0
        invariant forall j :: 0 <= j < k ==>
          rows[j] == AdminOrderRow(OrderToDict(orders[j], env.iso), users[UserById(users, orders[j].userId)].email)
      {
        var u := UserById(users, orders[k].userId);
        if u < 0 {
          return SERVER_ERROR, [];
        }
        rows := rows + [AdminOrderRow(OrderToDict(orders[k], env.iso), users[u].email)];
        k := k + 1;
      }
      r := Done(200);
    }

    /** `GET /api/admin/accounts`: each account with its owner's email. */
    method GetAllAccounts(header: Option<string>, env: Env) returns (r: Response, rows: seq<AdminAccountRow>)
      ensures AdminRequired(header, env.decode).Deny? ==> r == Denied(AdminRequired(header, env.decode)) && rows == []
      ensures AdminRequired(header, env.decode).Allow? ==>
        && (r.status == 200 <==> forall k :: 0 <= k < |accounts| ==> UserById(users, accounts[k].userId) >= 0)
        && (r.status != 200 ==> r == SERVER_ERROR && rows == [])
        && (r.status == 200 ==>
              && r == Done(200) && |rows| == |accounts|
              && forall k :: 0 <= k < |accounts| ==>
                rows[k] == AdminAccountRow(AccountToDict(accounts[k], env.iso), users[UserById(users, accounts[k].userId)].email))
    {
      var auth := AdminRequired(header, env.decode);
      if auth.Deny? {
        return Denied(auth), [];
      }
      rows := [];
      var k := 0;
      while k < |accounts|
        invariant 0 <= k <= |accounts| && |rows| == k
        invariant forall j :: 0 <= j < k ==> UserById(users, accounts[j].userId) >= 0
        invariant forall j :: 0 <= j < k ==>
          rows[j] == AdminAccountRow(AccountToDict(accounts[j], env.iso), users[UserById(users, accounts[j].userId)].email)
      {
        var u := UserById(users, accounts[k].userId);
        if u < 0 {
          return SERVER_ERROR, [];
        }
        rows := rows + [AdminAccountRow(AccountToDict(accounts[k], env.iso), users[u].email)];
        k := k + 1;
      }
      r := Done(200);
    }

    /** `PATCH /api/admin/accounts/<id>`: only the keys present are written. */
    method UpdateAccountStatus(header: Option<string>, accountId: nat, patch: AccountPatch, env: Env)
      returns (r: Response)
      requires Valid()
      modifies this
      ensures Valid()
      ensures users == old(users) && orders == old(orders)
      ensures AdminRequired(header, env.decode).Deny? ==> r == Denied(AdminRequired(header, env.decode)) && accounts == old(accounts)
      ensures AdminRequired(header, env.decode).Allow? ==>
        var i := AccountById(old(accounts), accountId);
        if !FitsInt64(accountId) then r == SERVER_ERROR && accounts == old(accounts)
        else if i < 0 then r == Fail(404, "Account not found") && accounts == old(accounts)
        else if !PatchFits(patch) then r == SERVER_ERROR && accounts == old(accounts)
        else r == Done(200) && accounts == old(accounts)[i := ApplyPatch(old(accounts)[i], patch)]
    {
      var auth := AdminRequired(header, env.decode);
      if auth.Deny? {
        return Denied(auth);
      }
      if !FitsInt64(accountId) {
        return SERVER_ERROR;
      }
      var i := AccountById(accounts, accountId);
      if i < 0 {
        return Fail(404, "Account not found");
      }
      if !PatchFits(patch) {
        return SERVER_ERROR;
      }
      var a := ApplyPatch(accounts[i], patch);
      UniqueByUpdate(accounts, AccountId, i, a);
      assert forall x :: x in accounts[i := a] ==> x == a || x in accounts;
      accounts := accounts[i := a];
      r := Done(200);
    }

    /** The JSON body of `POST /api/admin/accounts`; an absent key is `None`. */
    method AdminCreateAccount(header: Option<string>, userId: Option<int>, username: Option<string>,
                              niche: Option<string>, status: Option<string>, currentDay: Option<int>,
                              progress: Option<int>, env: Env)
      returns (r: Response)
      requires Valid()
      modifies this
      ensures Valid()
      ensures users == old(users) && orders == old(orders)
      ensures AdminRequired(header, env.decode).Deny? ==> r == Denied(AdminRequired(header, env.decode)) && accounts == old(accounts)
      ensures AdminRequired(header, env.decode).Allow? ==>
        if userId.None? || username.None? then r == SERVER_ERROR && accounts == old(accounts)
        else if !FitsInt64(userId.value) || !FitsInt64(currentDay.GetOr(0)) || !FitsInt64(progress.GetOr(0)) then
          r == SERVER_ERROR && accounts == old(accounts)
        else
          && r == Done(201)
          && accounts == InsertAccount(old(accounts), userId.value, username.value, niche.GetOr("general"),
                                       Some(status.GetOr(STATUS_PENDING)), Some(currentDay.GetOr(0)),
                                       Some(progress.GetOr(0)), env.now)
    {
      var auth := AdminRequired(header, env.decode);
      if auth.Deny? {
        return Denied(auth);
      }
      if userId.None? || username.None? {
        return SERVER_ERROR;
      }
      if !FitsInt64(userId.value) || !FitsInt64(currentDay.GetOr(0)) || !FitsInt64(progress.GetOr(0)) {
        return SERVER_ERROR;
      }
      accounts := InsertAccount(accounts, userId.value, username.value, niche.GetOr("general"),
                                Some(status.GetOr(STATUS_PENDING)), Some(currentDay.GetOr(0)),
                                Some(progress.GetOr(0)), env.now);
      r := Done(201);
    }

    /** `DELETE /api/admin/accounts/<id>`. */
    method DeleteAccount(header: Option<string>, accountId: nat, env: Env) returns (r: Response)
      requires Valid()
      modifies this
      ensures Valid()
      ensures users == old(users) && orders == old(orders)
      ensures AdminRequired(header, env.decode).Deny? ==> r == Denied(AdminRequired(header, env.decode)) && accounts == old(accounts)
      ensures AdminRequired(header, env.decode).Allow? ==>
        if !FitsInt64(accountId) then r == SERVER_ERROR && accounts == old(accounts)
        else if AccountById(old(accounts), accountId) < 0 then r == Fail(404, "Account not found") && accounts == old(accounts)
        else
          && r == Done(200)
          && accounts == AccountsNotWithId(old(accounts), accountId)
          && |accounts| == |old(accounts)| - 1
    {
      var auth := AdminRequired(header, env.decode);
      if auth.Deny? {
        return Denied(auth);
      }
      if !FitsInt64(accountId) {
        return SERVER_ERROR;
      }
      var i := AccountById(accounts, accountId);
      if i < 0 {
        return Fail(404, "Account not found");
      }
      UniqueKeyRemovedOnce(accounts, i);
      FilterKeepsValidAccounts(accounts, IdIsNot(accountId));
      accounts := AccountsNotWithId(accounts, accountId);
      r := Done(200);
    }

    /** `PATCH /api/admin/orders/<id>`: only `status` may change. */
    method UpdateOrderStatus(header: Option<string>, orderId: nat, status: Option<string>, env: Env)
      returns (r: Response)
      requires Valid()
      modifies this
      ensures Valid()
      ensures users == old(users) && accounts == old(accounts)
      ensures AdminRequired(header, env.decode).Deny? ==> r == Denied(AdminRequired(header, env.decode)) && orders == old(orders)
      ensures AdminRequired(header, env.decode).Allow? ==>
        var i := OrderById(old(orders), orderId);
        if !FitsInt64(orderId) then r == SERVER_ERROR && orders == old(orders)
        else if i < 0 then r == Fail(404, "Order not found") && orders == old(orders)
        else r == Done(200) && orders == old(orders)[i := old(orders)[i].(status := status.GetOr(old(orders)[i].status))]
    {
      var auth := AdminRequired(header, env.decode);
      if auth.Deny? {
        return Denied(auth);
      }
      if !FitsInt64(orderId) {
        return SERVER_ERROR;
      }
      var i := OrderById(orders, orderId);
      if i < 0 {
        return Fail(404, "Order not found");
      }
      var o := if status.Some? then orders[i].(status := status.value) else orders[i];
      UniqueByUpdate(orders, OrderId, i, o);
      assert forall x :: x in orders[i := o] ==> x == o || x in orders;
      orders := orders[i := o];
      r := Done(200);
    }

    /** `GET /api/admin/stats`. */
    method GetAdminStats(header: Option<string>, env: Env) returns (r: Response, s: Stats)
      requires Valid()
      ensures AdminRequired(header, env.decode).Deny? ==> r == Denied(AdminRequired(header, env.decode))
      ensures AdminRequired(header, env.decode).Allow? ==>
        && r == Done(200)
        && s.totalUsers == Count(users, IsClientUser) && s.totalOrders == |orders|
        && s.paidOrders == Count(orders, IsPaid) && s.revenueCents == Revenue(orders)
        && s.activeAccounts == Count(accounts, IsWarming) && s.completedAccounts == Count(accounts, IsCompletedAccount)
        && s.totalUsers <= |users| && s.paidOrders <= s.totalOrders
        && 7500 * s.paidOrders <= s.revenueCents <= 49900 * s.paidOrders
    {
      var auth := AdminRequired(header, env.decode);
      if auth.Deny? {
        return Denied(auth), Stats(0, 0, 0, 0, 0, 0);
      }
      RevenueBounds(orders);
      s := Stats(Count(users, IsClientUser), |orders|, Count(orders, IsPaid), Revenue(orders),
                 Count(accounts, IsWarming), Count(accounts, IsCompletedAccount));
      r := Done(200);
    }

    /** `DELETE /api/admin/users/<id>`: the user goes, with all their orders and
        accounts; administrators cannot be deleted. */
    method DeleteUser(header: Option<string>, userId: nat, env: Env) returns (r: Response)
      requires Valid()
      modifies this
      ensures Valid()
      ensures r.status != 200 ==> unchanged(this)
      ensures forall u :: u in old(users) && u.role == ROLE_ADMIN ==> u in users
      ensures AdminRequired(header, env.decode).Deny? ==> r == Denied(AdminRequired(header, env.decode))
      ensures AdminRequired(header, env.decode).Allow? ==>
        var i := UserById(old(users), userId);
        && (!FitsInt64(userId) ==> r == SERVER_ERROR)
        && (FitsInt64(userId) && i < 0 ==> r == Fail(404, "User not found"))
        && (FitsInt64(userId) && 0 <= i && old(users)[i].role == ROLE_ADMIN ==> r == Fail(403, "Cannot delete admin users"))
        && (FitsInt64(userId) && 0 <= i && old(users)[i].role != ROLE_ADMIN ==>
              && r == Done(200)
              && users == UsersNotWithId(old(users), userId)
              && orders == OrdersNotOf(old(orders), userId)
              && accounts == AccountsNotOf(old(accounts), userId))
      ensures r.status == 200 ==>
        && (forall u :: u in users ==> u.id != userId)
        && (forall o :: o in orders ==> o.userId != userId)
        && (forall a :: a in accounts ==> a.userId != userId)
        && (forall u :: u in old(users) && u.id != userId ==> u in users)
        && (forall o :: o in old(orders) && o.userId != userId ==> o in orders)
        && (forall a :: a in old(accounts) && a.userId != userId ==> a in accounts)
    {
      var auth := AdminRequired(header, env.decode);
      if auth.Deny? {
        return Denied(auth);
      }
      if !FitsInt64(userId) {
        return SERVER_ERROR;
      }
      var i := UserById(users, userId);
      if i < 0 {
        return Fail(404, "User not found");
      }
      if users[i].role == ROLE_ADMIN {
        return Fail(403, "Cannot delete admin users");
      }
      forall u | u in users && u.role == ROLE_ADMIN ensures u.id != userId {
        var j :| 0 <= j < |users| && users[j] == u;
        assert j != i;
        assert UserId(users[j]) != UserId(users[i]);
      }
      FilterKeepsValidUsers(users, (u: User) => u.id != userId);
      FilterKeepsValidOrders(orders, (o: Order) => o.userId != userId);
      FilterKeepsValidAccounts(accounts, (a: Account) => a.userId != userId);
      accounts := AccountsNotOf(accounts, userId);
      orders := OrdersNotOf(orders, userId);
      users := UsersNotWithId(users, userId);
      r := Done(200);
    }

    /** `POST /api/admin/orders/manual`: a paid order without Stripe, for an
        existing user id or for a new client created in the same transaction. */
    method CreateManualOrder(header: Option<string>, req: ManualOrderRequest, salt: Salt, nonce: string, env: Env)
      returns (r: Response)
      requires Valid()
      modifies this
      ensures Valid()
      ensures r.status != 201 ==> unchanged(this)
      ensures AdminRequired(header, env.decode).Deny? ==> r == Denied(AdminRequired(header, env.decode))
      ensures AdminRequired(header, env.decode).Allow? ==>
        && (req.createNewUser && !(Given(req.email) && Given(req.password)) ==>
              r == Fail(400, "Email and password required for new user"))
        && (req.createNewUser && Given(req.email) && Given(req.password) && EmailInUse(old(users), req.email.value) ==>
              r == Fail(400, "User already exists"))
        && (!req.createNewUser && ConvertUserId(req.userId).InvalidId? ==> r == Fail(400, "Invalid user ID"))
        && (!req.createNewUser && ConvertUserId(req.userId).FalsyId? ==> r == Fail(400, "User ID is required"))
        && (ManualTargetOk(req, old(users)) && !IsPlan(req.plan) ==> r == Fail(400, "Invalid plan"))
        && (ManualTargetOk(req, old(users)) && IsPlan(req.plan) && !ManualTargetFits(req, old(users)) ==>
              r == SERVER_ERROR)
        && (ManualTargetOk(req, old(users)) && IsPlan(req.plan) && ManualTargetFits(req, old(users)) ==>
              && r == Done(201) && accounts == old(accounts)
              && users == (if req.createNewUser
                           then InsertUser(old(users), req.email.value, env.hasher.hashpw(req.password.value, salt), ROLE_CLIENT, env.now)
                           else old(users))
              && orders == InsertOrder(old(orders), ManualTarget(req, old(users)),
                                       Some(ManualSessionId(req.paymentMethod, nonce)), req.plan.value, "paid", env.now))
    {
      var auth := AdminRequired(header, env.decode);
      if auth.Deny? {
        return Denied(auth);
      }
      // the session's pending rows; nothing is written unless the handler commits
      var pendingUsers := users;
      var target: int;
      if req.createNewUser {
        if !Given(req.email) || !Given(req.password) {
          return Fail(400, "Email and password required for new user");
        }
        if UserByEmail(users, req.email.value) >= 0 {
          return Fail(400, "User already exists");
        }
        pendingUsers := InsertUser(users, req.email.value, env.hasher.hashpw(req.password.value, salt), ROLE_CLIENT, env.now);
        target := NextId(users, UserId);
      } else {
        match ConvertUserId(req.userId) {
          case InvalidId =>
            return Fail(400, "Invalid user ID");
          case FalsyId =>
            return Fail(400, "User ID is required");
          case Converted(n) =>
            target := n;
        }
      }
      if !IsPlan(req.plan) {
        return Fail(400, "Invalid plan");
      }
      if !req.createNewUser && !FitsInt64(target) {
        return SERVER_ERROR;
      }
      users := pendingUsers;
      orders := InsertOrder(orders, target, Some(ManualSessionId(req.paymentMethod, nonce)), req.plan.value, "paid", env.now);
      r := Done(201);
    }

    /** `POST /api/admin/change-password`: the caller's own password. */
    method ChangeAdminPassword(header: Option<string>, newPassword: Option<string>, salt: Salt, env: Env)
      returns (r: Response)
      requires Valid()
      modifies this
      ensures Valid()
      ensures orders == old(orders) && accounts == old(accounts)
      ensures r.status != 200 ==> unchanged(this)
      ensures AdminRequired(header, env.decode).Deny? ==> r == Denied(AdminRequired(header, env.decode))
      ensures AdminRequired(header, env.decode).Allow? ==>
        var caller := CallerId(AdminRequired(header, env.decode).claims);
        && (!Given(newPassword) || |newPassword.value| < 8 ==> r == Fail(400, "Password must be at least 8 characters"))
        && (Given(newPassword) && |newPassword.value| >= 8 ==>
              if caller.None? || UserById(old(users), caller.value) < 0 then r == SERVER_ERROR
              else
                var i := UserById(old(users), caller.value);
                && r == Done(200)
                && users == old(users)[i := SetPassword(old(users)[i], newPassword.value, salt, env.hasher)]
                && (SoundHasher(env.hasher) ==> CheckPassword(users[i], newPassword.value, env.hasher)))
    {
      var auth := AdminRequired(header, env.decode);
      if auth.Deny? {
        return Denied(auth);
      }
      if !Given(newPassword) || |newPassword.value| < 8 {
        return Fail(400, "Password must be at least 8 characters");
      }
      var caller := CallerId(auth.claims);
      if caller.None? {
        return SERVER_ERROR;
      }
      var i := UserById(users, caller.value);
      if i < 0 {
        return SERVER_ERROR;
      }
      var u := SetPassword(users[i], newPassword.value, salt, env.hasher);
      UniqueByUpdate(users, UserId, i, u);
      UniqueByUpdate(users, UserEmail, i, u);
      assert forall x :: x in users[i := u] ==> x == u || x in users;
      if SoundHasher(env.hasher) {
        CheckAfterSet(users[i], newPassword.value, salt, env.hasher);
      }
      users := users[i := u];
      r := Done(200);
    }

    /** `POST /api/admin/users/create-admin`. */
    method CreateAdminUser(header: Option<string>, email: Option<string>, password: Option<string>, salt: Salt, env: Env)
      returns (r: Response)
      requires Valid()
      modifies this
      ensures Valid()
      ensures orders == old(orders) && accounts == old(accounts)
      ensures r.status != 201 ==> unchanged(this)
      ensures AdminRequired(header, env.decode).Deny? ==> r == Denied(AdminRequired(header, env.decode))
      ensures AdminRequired(header, env.decode).Allow? ==>
        && (!Given(email) || !Given(password) ==> r == Fail(400, "Email and password required"))
        && (Given(email) && Given(password) && EmailInUse(old(users), email.value) ==> r == Fail(400, "User already exists"))
        && (Given(email) && Given(password) && !EmailInUse(old(users), email.value) ==>
              r == Done(201) &&
              users == InsertUser(old(users), email.value, env.hasher.hashpw(password.value, salt), ROLE_ADMIN, env.now))
    {
      var auth := AdminRequired(header, env.decode);
      if auth.Deny? {
        return Denied(auth);
      }
      if !Given(email) || !Given(password) {
        return Fail(400, "Email and password required");
      }
      if UserByEmail(users, email.value) >= 0 {
        return Fail(400, "User already exists");
      }
      users := InsertUser(users, email.value, env.hasher.hashpw(password.value, salt), ROLE_ADMIN, env.now);
      r := Done(201);
    }
  }

  /** With unique account ids, exactly one row carries the id of row `i`. */
  lemma UniqueKeyRemovedOnce(accounts: seq<Account>, i: nat)
    requires ValidAccounts(accounts) && i < |accounts|
    ensures |AccountsNotWithId(accounts, accounts[i].id)| == |accounts| - 1
  {
    var p := IdIsNot(accounts[i].id);
    forall j | 0 <= j < |accounts| && j != i ensures p(accounts[j]) {
      assert AccountId(accounts[j]) != AccountId(accounts[i]);
    }
    FilterDropsOne(accounts, p, i);
  }
}
