/** The list logic of the admin dashboard page: the search box over the order
    and account tables, the "Active Accounts" figure and the user picker of the
    add-account form. JavaScript's optional chaining makes a missing field
    (`undefined` or `null`) fail the match rather than throw. */
module AdminDashboard {
  import opened Wrappers
  import opened Seqs
  import opened Text
  import opened Models
  import App

  /** The fields of an order row the search reads. */
  datatype OrderRow = OrderRow(userEmail: Option<string>, plan: Option<string>)

  /** The fields of an account row the page reads. */
  datatype AccountRow = AccountRow(username: Option<string>, userEmail: Option<string>, status: Option<string>)

  /** `field?.toLowerCase().includes(searchTerm.toLowerCase())`. */
  predicate FieldMatches(field: Option<string>, term: string) {
    field.Some? && Includes(Lower(field.value), Lower(term))
  }

  predicate OrderMatches(term: string, o: OrderRow) {
    FieldMatches(o.userEmail, term) || FieldMatches(o.plan, term)
  }

  predicate AccountMatches(term: string, a: AccountRow) {
    FieldMatches(a.username, term) || FieldMatches(a.userEmail, term)
  }

  function OrderMatcher(term: string): OrderRow -> bool {
    (o: OrderRow) => OrderMatches(term, o)
  }

  function AccountMatcher(term: string): AccountRow -> bool {
    (a: AccountRow) => AccountMatches(term, a)
  }

  /** `filteredOrders`: the orders whose email or plan contains the term, ignoring case. */
  function FilteredOrders(orders: seq<OrderRow>, term: string): (r: seq<OrderRow>)
    ensures forall o :: o in r <==> o in orders && OrderMatches(term, o)
    ensures forall o :: multiset(r)[o] == if OrderMatches(term, o) then multiset(orders)[o] else 0
    ensures IsSubsequence(r, orders)
  {
    FilterIsSubsequence(orders, OrderMatcher(term));
    FilterMultiset(orders, OrderMatcher(term));
    Filter(orders, OrderMatcher(term))
  }

  /** `filteredAccounts`: the accounts whose username or email contains the term, ignoring case. */
  function FilteredAccounts(accounts: seq<AccountRow>, term: string): (r: seq<AccountRow>)
    ensures forall a :: a in r <==> a in accounts && AccountMatches(term, a)
    ensures forall a :: multiset(r)[a] == if AccountMatches(term, a) then multiset(accounts)[a] else 0
    ensures IsSubsequence(r, accounts)
  {
    FilterIsSubsequence(accounts, AccountMatcher(term));
    FilterMultiset(accounts, AccountMatcher(term));
    Filter(accounts, AccountMatcher(term))
  }

  /** Searching the result again with the same term changes nothing. */
  lemma FilteredOrdersIdempotent(orders: seq<OrderRow>, term: string)
    ensures FilteredOrders(FilteredOrders(orders, term), term) == FilteredOrders(orders, term)
  {
    FilterIdempotent(orders, OrderMatcher(term));
  }

  lemma FilteredAccountsIdempotent(accounts: seq<AccountRow>, term: string)
    ensures FilteredAccounts(FilteredAccounts(accounts, term), term) == FilteredAccounts(accounts, term)
  {
    FilterIdempotent(accounts, AccountMatcher(term));
  }

  /** Terms that agree after lower-casing give the same result; in particular
      the case of the term never matters. */
  lemma SearchIgnoresCase(orders: seq<OrderRow>, accounts: seq<AccountRow>, t1: string, t2: string)
    requires Lower(t1) == Lower(t2)
    ensures FilteredOrders(orders, t1) == FilteredOrders(orders, t2)
    ensures FilteredAccounts(accounts, t1) == FilteredAccounts(accounts, t2)
  {
    FilterCongruent(orders, OrderMatcher(t1), OrderMatcher(t2));
    FilterCongruent(accounts, AccountMatcher(t1), AccountMatcher(t2));
  }

  lemma SearchLowerTerm(orders: seq<OrderRow>, accounts: seq<AccountRow>, term: string)
    ensures FilteredOrders(orders, Lower(term)) == FilteredOrders(orders, term)
    ensures FilteredAccounts(accounts, Lower(term)) == FilteredAccounts(accounts, term)
  {
    LowerIdempotent(term);
    SearchIgnoresCase(orders, accounts, Lower(term), term);
  }

  predicate HasOrderField(o: OrderRow) { o.userEmail.Some? || o.plan.Some? }
  predicate HasAccountField(a: AccountRow) { a.username.Some? || a.userEmail.Some? }

  /** The empty term keeps exactly the rows with at least one searched field present. */
  lemma EmptySearch(orders: seq<OrderRow>, accounts: seq<AccountRow>)
    ensures FilteredOrders(orders, "") == Filter(orders, HasOrderField)
    ensures FilteredAccounts(accounts, "") == Filter(accounts, HasAccountField)
  {
    forall o | o in orders ensures OrderMatcher("")(o) == HasOrderField(o) {
      if o.userEmail.Some? { IncludesEmpty(Lower(o.userEmail.value)); }
      if o.plan.Some? { IncludesEmpty(Lower(o.plan.value)); }
    }
    forall a | a in accounts ensures AccountMatcher("")(a) == HasAccountField(a) {
      if a.username.Some? { IncludesEmpty(Lower(a.username.value)); }
      if a.userEmail.Some? { IncludesEmpty(Lower(a.userEmail.value)); }
    }
    FilterCongruent(orders, OrderMatcher(""), HasOrderField);
    FilterCongruent(accounts, AccountMatcher(""), HasAccountField);
  }

  // ---------------------------------------------------------------- figures and picker

  predicate IsWarmingRow(a: AccountRow) { a.status == Some("warming") }

  /** The "Active Accounts" figure. */
  function ActiveAccounts(accounts: seq<AccountRow>): (n: nat)
    ensures n <= |accounts|
    ensures n == 0 <==> forall a :: a in accounts ==> !IsWarmingRow(a)
  {
    var warming := Filter(accounts, IsWarmingRow);
    assert warming != [] ==> warming[0] in warming;
    |warming|
  }

  predicate IsNotAdmin(u: UserDict) { !u.isAdmin }

  /** `users.filter(u => !u.is_admin)`: the users offered by the add-account form. */
  function NonAdminUsers(users: seq<UserDict>): (r: seq<UserDict>)
    ensures forall u :: u in r <==> u in users && !u.isAdmin
    ensures forall u :: multiset(r)[u] == if u.isAdmin then 0 else multiset(users)[u]
    ensures IsSubsequence(r, users)
  {
    FilterIsSubsequence(users, IsNotAdmin);
    FilterMultiset(users, IsNotAdmin);
    Filter(users, IsNotAdmin)
  }

  // ---------------------------------------------------------------- against the backend

  /** The part of a `GET /api/admin/orders` row the page searches. */
  function OrderRowOf(r: App.AdminOrderRow): OrderRow {
    OrderRow(Some(r.userEmail), Some(r.order.plan))
  }

  /** The part of a `GET /api/admin/accounts` row the page reads. */
  function AccountRowOf(r: App.AdminAccountRow): AccountRow {
    AccountRow(Some(r.account.username), Some(r.userEmail), Some(r.account.status))
  }

  /** Rows from the backend always carry both searched fields, so the empty
      term shows every order and every account. */
  lemma EmptySearchShowsAll(rows: seq<App.AdminOrderRow>, accountRows: seq<App.AdminAccountRow>)
    ensures FilteredOrders(Map(rows, OrderRowOf), "") == Map(rows, OrderRowOf)
    ensures FilteredAccounts(Map(accountRows, AccountRowOf), "") == Map(accountRows, AccountRowOf)
  {
    EmptySearch(Map(rows, OrderRowOf), Map(accountRows, AccountRowOf));
    FilterKeepsAll(Map(rows, OrderRowOf), HasOrderField);
    FilterKeepsAll(Map(accountRows, AccountRowOf), HasAccountField);
  }

  /** Over the rows of `GET /api/admin/accounts`, the figure equals the stats
      handler's `active_accounts`. */
  lemma ActiveAccountsMatchesStats(accounts: seq<Account>, rows: seq<App.AdminAccountRow>, iso: Time -> string)
    requires |rows| == |accounts|
    requires forall k :: 0 <= k < |accounts| ==> rows[k].account == AccountToDict(accounts[k], iso)
    ensures ActiveAccounts(Map(rows, AccountRowOf)) == Count(accounts, App.IsWarming)
  {
    CountPointwise(Map(rows, AccountRowOf), accounts, IsWarmingRow, App.IsWarming);
  }

  function UserView(iso: Time -> string): User -> UserDict {
    (u: User) => UserToDict(u, iso)
  }

  predicate IsNotAdminUser(u: User) { u.role != ROLE_ADMIN }

  /** Over the rows of `GET /api/admin/users`, the picker lists exactly the
      non-admin users, in table order. */
  lemma PickerListsNonAdmins(users: seq<User>, iso: Time -> string)
    ensures NonAdminUsers(Map(users, UserView(iso))) == Map(Filter(users, IsNotAdminUser), UserView(iso))
  {
    FilterMap(users, UserView(iso), IsNotAdminUser, IsNotAdmin);
  }
}
