# Warm-up service backend: a Dafny model

This project models the server side of an Instagram warm-up service. It is a Flask
application over three tables:

- users: clients and administrators;
- orders: one per purchased plan, paid through Stripe or recorded by hand by an administrator;
- accounts: the Instagram accounts a client hands over for warming.

The same repository holds the list logic of the administrators' dashboard: the search box,
the "Active Accounts" figure and the user picker. That logic is modelled too.

The store is the class `App.Store`. Its three `seq` fields are the tables, and each row is a
datatype value from `Models`. Every HTTP route that changes the store is a method. The
method states the answer it gives (`Response(status, error)`) and the whole new store.

Each handler is a transaction. The store changes only where the source commits. Every early
return leaves the store unchanged. That includes the return after the new user of a manual
order has been flushed.

The invariant `Store.Valid()` is kept by every method:

- ids are positive and unique;
- emails are unique;
- every role is `client` or `admin`;
- every order is for one of the three plans, at that plan's price in cents.

The route guards (`Auth`) are functions from the `Authorization` header and an abstract
token decoder to allow, 401 or 403. Every guarded method applies its guard first. When the
guard refuses, the method answers with the guard's response and leaves the store unchanged.

The Python and JavaScript primitives the code relies on are modelled over ASCII in `Text`:

- `str.split(' ')`, where every space separates, so adjacent spaces give empty fields;
- `str.strip()` and `str.replace`;
- `int()` on strings;
- `toLowerCase` and `includes`.

Generic list facts are in `Seqs`: filter, count, sum, first match, unique keys and the next
primary key.

Modules:

- `Wrappers`: `Option`.
- `Seqs`: list facts used for tables and JavaScript arrays.
- `Text`: string primitives.
- `Models`: `backend/models.py`. Rows, column defaults, the `to_dict` views, passwords and
  the credential-encryption helpers.
- `Auth`: `backend/auth.py`.
- `App`: `backend/app.py`. The store, the request types and the handlers.
- `AdminDashboard`: the filters of `src/AdminDashboard.jsx`, and how they relate to the
  rows the backend serves.

New ids follow SQLite's rule for an integer primary key: one more than the largest id in
the table, or 1 for an empty table.

## Model

| member | source | states |
|---|---|---|
| App.Store.constructor | backend/app.py:20-28 | a fresh database holds only the administrator `admin@warmup.ai`, whose hash is of `admin123`; the store is valid |
| App.Store.Register | backend/app.py:31-45 | a missing or empty email or password gives 400 and no change; an email in use gives 400 "User already exists" and adds no user; otherwise exactly one `client` user is added and the token carries its id, email and role; emails stay unique |
| App.Store.Login | backend/app.py:47-58 | missing fields give 400; success holds exactly when some user has that email and the password checks; an unknown email and a wrong password give the same 401 "Invalid credentials"; the token is for that user |
| App.Store.CreateCheckout | backend/app.py:69-94 | the guard's refusal, then 400 "Invalid plan", then 500 when the calling user does not exist (before Stripe is called), then Stripe's error as 500; otherwise one `pending` order for the caller at the plan's price with the session id; no change unless 200 |
| App.Store.CreateGuestCheckout | backend/app.py:96-123 | a missing email or invalid plan gives 400 "Invalid request"; a Stripe error gives 500 and no change; otherwise the user with that email is reused or created as a client, and one `pending` order is recorded for that user |
| App.Store.StripeWebhook | backend/app.py:125-140 | a rejected signature gives 400; for `checkout.session.completed`, the first order with that session id becomes `paid` with the payment intent, and every other order is unchanged; any other event type changes nothing |
| App.MarkPaid | backend/app.py:136-137 | the order the webhook marks: status `paid` and the session's payment intent; see `App.Store.StripeWebhook` |
| App.Store.CreateAccount | backend/app.py:149-175 | no paid order for the caller gives 403 and no change; missing username or niche gives 400; the stored username is the normalised one; a second account with the same user and normalised name gives 400; otherwise one `pending` account is added |
| App.NormalizeUsername | backend/app.py:165 | the stored username is the `@`-free raw name with exactly its leading and trailing whitespace cut: it contains no `@`, neither starts nor ends with whitespace, and everything else is kept in order |
| App.NormalizeIdempotent | backend/app.py:165 | normalising a normalised username gives it back |
| App.Store.GetAllOrders | backend/app.py:190-199 | 200 exactly when every order's user exists, with one row per order in table order holding `to_dict` and the owner's email; otherwise the unhandled error (500) |
| App.Store.GetAllAccounts | backend/app.py:201-210 | 200 exactly when every account's user exists, with one row per account in table order holding `to_dict` and the owner's email; otherwise 500 |
| App.Store.UpdateAccountStatus | backend/app.py:212-228 | an id outside SQLite's 64-bit range raises (500), then an unknown id gives 404 "Account not found", then a `current_day` or `progress_percentage` outside that range makes the commit raise (500), all with no change; otherwise only that account changes, by the patch |
| App.ApplyPatch | backend/app.py:219-226 | each of status, current_day, progress_percentage and proxy_id present in the body is written; every other field of the account stays the same |
| App.PatchLaws | backend/app.py:219-226 | an empty patch changes nothing, and applying a patch twice equals applying it once |
| App.Store.AdminCreateAccount | backend/app.py:230-244 | a missing `user_id` or `username` raises (500), and so does a `user_id`, `current_day` or `progress_percentage` outside SQLite's 64-bit range at commit, all with no change; otherwise one account with the defaults `general`, `pending`, 0 and 0 for absent keys; the user id is not checked |
| App.Store.DeleteAccount | backend/app.py:246-254 | an id outside SQLite's 64-bit range raises (500) and an unknown id gives 404, both with no change; otherwise exactly that one account is removed, and nothing else changes |
| App.Store.UpdateOrderStatus | backend/app.py:256-266 | an id outside SQLite's 64-bit range raises (500) and an unknown id gives 404, both with no change; otherwise only that order's status changes, and only when `status` is in the body |
| App.Store.GetAdminStats | backend/app.py:268-284 | the counts of clients, orders, paid orders, warming and completed accounts, and the revenue in cents of the paid orders; the revenue lies between 7500 and 49900 times the paid-order count |
| App.RevenueBounds | backend/app.py:274 | under the order invariant, revenue in cents lies between 7500 and 49900 times the number of paid orders |
| App.Store.DeleteUser | backend/app.py:286-299 | an id outside SQLite's 64-bit range raises (500), a missing id gives 404 and an admin gives 403, checked in that order and with no change; on success no user, order or account with that id remains, every other row is kept, and no administrator is ever removed |
| App.Store.CreateManualOrder | backend/app.py:301-350 | a new user needs an email and a password and a free email; otherwise the id must convert to a non-zero integer; then the plan must be valid; then a converted id outside SQLite's 64-bit range makes the commit raise (500); every rejection leaves the store unchanged, including the flushed new user; success adds one `paid` order at the plan's price, plus the new client when requested |
| App.ConvertUserId | backend/app.py:327-335 | a successfully converted id is never zero |
| App.ConvertUserIdRules | backend/app.py:328-335 | a non-zero id is accepted as a number or as its decimal string; zero, absent or empty is "required"; a non-empty string that `int()` rejects is "invalid" |
| App.Store.ChangeAdminPassword | backend/app.py:352-364 | a password missing or shorter than 8 characters gives 400 and no change; a caller missing from the table raises (500); otherwise only the caller's hash changes, and with a sound hasher the new password checks |
| App.Store.CreateAdminUser | backend/app.py:366-383 | missing fields give 400 and an email in use gives 400, both with no change; otherwise exactly one `admin` user is added; emails stay unique |
| App.Price | backend/app.py:84 | every plan is priced between 7500 and 49900 cents |
| App.InsertUser | backend/models.py:39-42 | adding a user with an unused email and a valid role keeps ids and emails unique, and the email is then in use |
| App.InsertOrder | backend/app.py:84-86 | adding an order for a valid plan at `amounts[plan]` keeps ids unique and every amount equal to its plan's price |
| App.InsertAccount | backend/app.py:172-173 | adding an account keeps account ids unique and positive |
| App.UniqueKeyRemovedOnce | backend/app.py:249-252 | with unique account ids, deleting by id removes exactly one row |
| Seqs.NextId | backend/models.py:39 | a new primary key is positive and larger than every id in the table |
| Models.ColumnDefaults | backend/models.py:42-101 | a new user defaults to `client`, a new order to `pending` with no payment id, and a new account to `pending` with every counter 0 and every optional field (order, encrypted password, proxy, start and end times) empty |
| Models.NewUser | backend/models.py:36-43 | a new user row with the `client` role default; see `Models.ColumnDefaults` |
| Models.NewOrder | backend/models.py:64-74 | a new order row with the `pending` status default; see `Models.ColumnDefaults` |
| Models.NewAccount | backend/models.py:86-104 | a new account row with the `pending`, day 0 and zero-counter defaults; see `Models.ColumnDefaults` |
| Models.UserToDict | backend/models.py:54-61 | `is_admin` is true exactly when the role is `admin`; id, email and role are copied |
| Models.OrderToDict | backend/models.py:76-83 | the order's public view, amount kept in cents; used by the admin order list, see `App.Store.GetAllOrders` |
| Models.IsoOrNone | backend/models.py:118-119 | an absent timestamp maps to `None`, a present one to its ISO text |
| Models.SetPassword | backend/models.py:48-49 | store a bcrypt hash of the password; see `Models.CheckAfterSet` |
| Models.CheckPassword | backend/models.py:51-52 | bcrypt's check of a password against the stored hash; see `Models.CheckAfterSet` |
| Models.AccountToDict | backend/models.py:106-120 | `started_at` and `completed_at` are `None` exactly when absent; id, username and status are copied |
| Models.CheckAfterSet | backend/models.py:48-52 | after `set_password(p)`, `check_password(p)` holds for a sound hash and check pair |
| Models.EncryptPassword | backend/models.py:22-27 | the result is `None` exactly when the input is missing or empty |
| Models.DecryptPassword | backend/models.py:29-34 | the result is `None` exactly when the input is missing or empty |
| Models.DecryptEncrypt | backend/models.py:22-34 | with a cipher whose decryption inverts encryption, decrypting an encrypted password gives it back |
| Auth.GeneratedClaims | backend/auth.py:11-18 | the payload has exactly the claims user_id, email, role and exp, with the given values and exp = issue time + 86400 seconds |
| Auth.GenerateToken | backend/auth.py:11-18 | the token payload; see `Auth.GeneratedClaims` and `Auth.IssuedTokenAccepted` |
| Auth.ReadToken | backend/auth.py:29-36 | a token read from the header is non-empty and contains no space |
| Auth.TokenRequired | backend/auth.py:26-41 | an allowed request carries the decoded claims of the header's token; a read token with a non-empty payload is always allowed; every refusal is a 401 with one of the three messages |
| Auth.AdminRequired | backend/auth.py:43-58 | an allowed request carries decoded claims whose role is `admin`; a read token with a non-empty payload and role `admin` is always allowed; a refusal is 401 exactly when no token could be read, and every other refusal is 403 "Admin access required" |
| Auth.NoHeaderIsMissing | backend/auth.py:29-36 | without an Authorization header both guards answer 401 "Token is missing" |
| Auth.NoSpaceIsBadFormat | backend/auth.py:31-34 | a header with no space gets 401 "Invalid token format" from both guards |
| Auth.EmptySecondFieldIsMissing | backend/auth.py:32-36 | a header whose second space-separated field is empty (for example one ending in its only space) gets 401 "Token is missing" |
| Auth.TokenIsSecondField | backend/auth.py:32 | the token read is exactly the text between the first and the second space |
| Auth.SchemeIgnored | backend/auth.py:32 | the scheme word before the first space never changes either guard's outcome |
| Auth.UndecodableToken | backend/auth.py:37-39 | a token the decoder rejects, or that decodes to an empty payload, gives 401 "Token is invalid" from `token_required` and 403 from `admin_required` |
| Auth.AdminIsTokenPlusRole | backend/auth.py:54-57 | `admin_required` allows exactly when `token_required` allows and the role claim is `admin`, with the same claims |
| Auth.IssuedTokenAccepted | backend/auth.py:11-40 | a token issued for a user is accepted by `token_required` with that user's claims, for a decoder that inverts the encoder |
| Text.Split | backend/auth.py:32 | `split(' ')` yields at least one field and no field contains a space |
| Text.JoinSplit | backend/auth.py:32 | joining the fields with spaces gives the header back |
| Text.SplitHasSecondField | backend/auth.py:32-34 | `split(' ')[1]` exists exactly when the header contains a space |
| Text.Strip | backend/app.py:165 | `strip()` returns the slice that starts and ends without whitespace and has only whitespace outside it |
| Text.StripIdempotent | backend/app.py:165 | stripping twice is stripping once |
| Text.RemoveAll | backend/app.py:165 | `replace('@', '')` leaves no `@`, keeps every other character as often as it occurs and keeps the order |
| Text.ParseInt | backend/app.py:330 | `int()` succeeds exactly on surrounding whitespace around an optional sign and at least one decimal digit; without a sign the value is not negative |
| Text.ParseShowInt | backend/app.py:330 | `int(str(n)) == n` for every integer |
| Text.Lower | src/AdminDashboard.jsx:142 | lower-casing keeps the length and lower-cases each character in place |
| Text.LowerIdempotent | src/AdminDashboard.jsx:142 | lower-casing twice is lower-casing once |
| Text.IncludesIffOccurs | src/AdminDashboard.jsx:142 | `includes` holds exactly when the term occurs at some position |
| AdminDashboard.FilteredOrders | src/AdminDashboard.jsx:141-144 | an order is kept exactly when its email or plan contains the term, ignoring case, with every kept order as often as in the input, and the result is an order-preserving sublist |
| AdminDashboard.FilteredAccounts | src/AdminDashboard.jsx:146-149 | an account is kept exactly when its username or email contains the term, ignoring case, with every kept account as often as in the input, and the result is an order-preserving sublist |
| AdminDashboard.FilteredOrdersIdempotent | src/AdminDashboard.jsx:141-144 | filtering the filtered orders again with the same term changes nothing |
| AdminDashboard.FilteredAccountsIdempotent | src/AdminDashboard.jsx:146-149 | filtering the filtered accounts again with the same term changes nothing |
| AdminDashboard.SearchIgnoresCase | src/AdminDashboard.jsx:141-149 | terms equal after lower-casing give the same orders and accounts |
| AdminDashboard.SearchLowerTerm | src/AdminDashboard.jsx:141-149 | the lower-cased term gives the same result as the term |
| AdminDashboard.EmptySearch | src/AdminDashboard.jsx:142-148 | the empty term keeps exactly the rows with at least one searched field present; a row missing both is dropped |
| AdminDashboard.EmptySearchShowsAll | src/AdminDashboard.jsx:141-149 | over the rows the backend serves, which always carry both fields, the empty term shows every order and every account |
| AdminDashboard.ActiveAccounts | src/AdminDashboard.jsx:208 | the figure is at most the number of accounts, and zero exactly when no account is `warming` |
| AdminDashboard.ActiveAccountsMatchesStats | src/AdminDashboard.jsx:208 | over the rows of the admin accounts route, the figure equals the stats handler's count of `warming` accounts |
| AdminDashboard.NonAdminUsers | src/AdminDashboard.jsx:430 | the picker lists exactly the users with `is_admin` false, each as often as in the input, as an order-preserving sublist |
| AdminDashboard.PickerListsNonAdmins | src/AdminDashboard.jsx:430 | over `to_dict` of the users table, the picker lists exactly the non-admin users, in table order |

## Left out

- Stripe: `create_checkout_session` is a value that is either a session or a raised message, and `verify_webhook_signature` is an optional event. The SDK calls, URLs and prints of `backend/stripe_api.py` are not modelled.
- Cryptography: JWT encoding and decoding, bcrypt and Fernet are function parameters. Their round trips are assumptions of the lemmas that need them, not facts proved here.
- Models.DecryptEncrypt: the cipher is taken as one fixed key (`ENCRYPTION_KEY` set). When it is unset, `get_cipher` draws a fresh key on every call, so decrypting a stored password raises `InvalidToken`. The lemma's round-trip assumption excludes that development fallback.
- Console output: the prints of `backend/app.py` (the seeded administrator, the created order, the checkout error and its traceback, the successful payment) and `get_cipher`'s two warnings in `backend/models.py` are not modelled.
- Integer range: SQLite integers are 64-bit. The path ids of the four `<int:...>` routes, the integers of the account PATCH and of the admin account creation, and the converted `user_id` of a manual order are checked against that range, and a value outside it answers 500 with no change. A `user_id` claim outside the range is not modelled, because `generate_token` only signs ids of stored users. SQLite's choice of a random free key once the largest key is in use is not modelled either.
- Flask and SQLAlchemy machinery: routing, CORS, the per-request session and JSON parsing. A missing or non-object JSON body, which makes the handler raise, is not modelled.
- JSON value types: a body field is either absent or holds a value of the expected type. A key present with `null` is treated as absent. Floats and booleans, which `int()` and truthiness would also accept, are not modelled for `user_id`. `create_new_user` is a boolean.
- Response bodies: only the status, the handler's own error message and the issued token are modelled. The `to_dict` views are modelled as functions, and the two admin list routes return their rows.
- The read-only routes `/api/auth/me`, `GET /api/accounts`, `GET /api/orders`, `GET /api/admin/users` and `/api/health` change nothing and are not modelled. The users route appears only as `to_dict` over the table, in `AdminDashboard.PickerListsNonAdmins`.
- Start-up seeding: only a fresh database is modelled, through `App.Store.constructor`. A restart over an existing database is I/O.
- App.Store.CreateCheckout, App.Store.CreateAccount, App.Store.ChangeAdminPassword: a `user_id` claim that is not an integer is taken as the handler raising (500). Tokens from `generate_token` always carry an integer.
- Primary keys follow SQLite's max-plus-one rule. A Postgres sequence, which never reuses ids, is not modelled.
- Database constraints: the unique constraint on `stripe_session_id` and the `NOT NULL` columns, whose violation raises at commit, are not modelled. Foreign keys are not enforced. The model does not claim that every order or account refers to an existing user: `admin_create_account` and manual orders for an existing id never check it.
- Amounts are integer cents. The `/ 100` of `Order.to_dict` and of the stats revenue gives floats, which are not modelled.
- Timestamps: the clock and `isoformat` are parameters.
- Text is ASCII. Unicode lower-casing and Unicode whitespace are not modelled. `int()`'s acceptance of Unicode digits and of underscores between digits is not modelled either.
- Models.SetPassword returns the updated user value. The store writes it back, instead of the source's in-place attribute assignment.
- Requests are handled one at a time. Concurrent requests are not modelled.
- The migration and maintenance scripts, `stripe_api.py`, and the React pages other than the dashboard's list logic are not modelled. That covers fetching, state setters and `confirm()` prompts.
