# Wellness studio admin panel — client-side logic in Dafny

This project models the decision logic of the wellness-studio admin panel, a
React single-page application:

- the cookie token store,
- the login flow,
- the instructors page: its axios interceptor, bookings filter, add form,
  avatar initials and status buttons,
- the products page: search, add/edit dialog, delete, store orders,
- the store-items page: validation, append and reset,
- the order-management page: filter, status colours, update by id,
- the users page: search and request header,
- the navigation sidebar.

The token store and the login, instructors, products, store-items and orders
pages are Dafny classes whose handler methods change their fields. Each handler
is proved against pure functions of its inputs. The users page and the sidebar
are pure functions.
The network is not called. Each reply is an input to the handler:

- a fetch call takes a `Response`: nothing arrived, or a status flag, a
  content type, the raw body, and the parsed JSON if the body parses;
- an axios call takes an `Outcome`: fulfilled with data, or rejected with the
  server's `message`.

Each handler returns the requests it sends, follow-up refetches included,
and the toast it raises.

JavaScript semantics the pages rely on are written out in module `Js`:

- truthiness, where `""`, `0` and NaN are falsy;
- `x || fallback`;
- template interpolation of `undefined`, which gives "undefined";
- `String.prototype.includes`, `startsWith` and `slice(0, n)`;
- `trim`, with the ECMAScript white-space set;
- `split(' ')` and `join`;
- `toLowerCase`, as ASCII case folding.

Time is a day counter the caller passes in. The token cookie is a value with an
optional token and an optional expiry day.

The module `Lists` holds `Filter`, the order-preserving selection of a
sequence. It is proved to return a subsequence that keeps exactly the elements
satisfying the predicate. Every list filter on the pages is an instance of it.

The sidebar defines its own `isActive(path)`, but the render never calls it.
Each `NavLink` passes the router's own `isActive` to `getNavCls`. The model
proves the properties of the component's function as written
(`AdminSidebar.IsActive`). The router's matching is not modelled.

## Model

| member | source | states |
|---|---|---|
| Auth.Set | src/lib/auth.ts:5-7 | setting the token replaces whatever was stored; the token is read back on every day before `now + 7` and on no day after |
| Auth.SetSession | src/pages/Login.tsx:30 | a cookie written without the expiry option is read back on every day |
| Auth.Remove | src/lib/auth.ts:13-15 | after removal no token is read and the store is not authenticated, on any day |
| Auth.AuthenticatedIffNonEmpty | src/lib/auth.ts:17-19 | `isAuthenticated` holds exactly when a token is read and it is non-empty |
| Auth.SetReplaces | src/lib/auth.ts:3-7 | one key: the state before a set leaves no trace in the state after |
| Auth.SetThenGet | src/lib/auth.ts:5-11 | within seven days of a set, `getAuthToken` returns that token, and the store is authenticated iff it is non-empty |
| Auth.ExpiredAfterLifetime | src/lib/auth.ts:6 | from the seventh day on, no token is returned and the store is locked |
| Auth.RemoveIdempotent | src/lib/auth.ts:13-15 | removing twice equals removing once |
| Auth.TokenStore.constructor | src/lib/auth.ts:3 | a fresh store holds no cookie |
| Auth.TokenStore.SetAuthToken | src/lib/auth.ts:5-7 | the new store state is `Set` of the old one |
| Auth.TokenStore.SetWithoutExpiry | src/pages/Login.tsx:30 | the new store state is `SetSession` of the old one |
| Auth.TokenStore.RemoveAuthToken | src/lib/auth.ts:13-15 | the new store state is `Remove` of the old one |
| Auth.TokenStore.GetAuthToken | src/lib/auth.ts:9-11 | returns the token the cookie holds on that day, or none once it has expired |
| Auth.TokenStore.IsAuthenticatedNow | src/lib/auth.ts:17-19 | agrees with `IsAuthenticated` of the store's state |
| Login.LoginRequest | src/pages/Login.tsx:24-27 | a POST to `/api/users/admin/login` with body `{ email: username, password }` and no headers of its own (no Authorization) |
| Login.StoredToken | src/pages/Login.tsx:30 | the cookie holds the returned token, or the string "undefined" when the reply has none |
| Login.FailureMessage | src/pages/Login.tsx:43 | the failure description is never empty; it is the server's message when that is non-empty, and "Invalid" otherwise |
| Login.LoginUnlocks | src/pages/Login.tsx:30 | after a successful login the store is authenticated iff the returned token is not the empty string; a missing token still unlocks it |
| Login.LoginCookieOutlivesSetAuthToken | src/pages/Login.tsx:30 | the login cookie is still read seven days later, where one written by `setAuthToken` is gone |
| Login.LoginPage.constructor | src/pages/Login.tsx:12-14 | empty credentials, not loading |
| Login.LoginPage.SetCredentials | src/pages/Login.tsx:12-13 | the fields take the typed values |
| Login.LoginPage.Submit | src/pages/Login.tsx:21-27 | loading is set and the login request is built from the current fields |
| Login.LoginPage.Complete | src/pages/Login.tsx:28-48 | on success the cookie holds the token with no expiry and the page navigates to `/admin/instructors`; on failure the store is untouched, nothing navigates, and the failure toast shows; loading ends false either way |
| Login.LoginPage.HandleLogin | src/pages/Login.tsx:19-49 | the whole handler: the request it sends, the cookie it writes, where it navigates, loading false at the end |
| AdminInstructors.WithAuthorization | src/pages/AdminInstructors.tsx:17-21 | a truthy token sets `Authorization: Bearer <token>`; otherwise the headers are unchanged; no other header is touched |
| AdminInstructors.Intercept | src/pages/AdminInstructors.tsx:17-21 | the interceptor updates the config's headers in place, using the cookie read at request time |
| AdminInstructors.RequestConfig.constructor | src/pages/AdminInstructors.tsx:13-15 | a request config starts with no headers |
| AdminInstructors.ApiRequest | src/pages/AdminInstructors.tsx:13-21 | requests go to `VITE_API_URL + "/api/yoga" + path`, with the interceptor's headers |
| AdminInstructors.ApiRequestAuthorization | src/pages/AdminInstructors.tsx:19 | the header is present iff a non-empty token is stored, and then it carries exactly that token |
| AdminInstructors.ValidBookings | src/pages/AdminInstructors.tsx:50 | exactly the bookings with both a user and an instructor, in their order, as a subsequence |
| AdminInstructors.FormBlockers | src/pages/AdminInstructors.tsx:63-67 | any empty text field, or a rating of 0 or NaN, blocks the add; the initial form is blocked |
| AdminInstructors.HeadsOfSplit | src/pages/AdminInstructors.tsx:138 | mapping `n => n[0]` over `split(' ')` and joining equals taking every non-space character that begins the string or follows a space |
| AdminInstructors.InitialsAreWordStarts | src/pages/AdminInstructors.tsx:138 | the avatar initials are the first character of each space-separated word, in order |
| AdminInstructors.StatusButtons | src/pages/AdminInstructors.tsx:178-179 | three buttons, pending, confirmed and cancelled, in that order; a button is highlighted iff it is the booking's status |
| AdminInstructors.OneHighlighted | src/pages/AdminInstructors.tsx:178-179 | at most one button is highlighted, and one is iff the status is one of the three |
| AdminInstructors.InstructorsPage.constructor | src/pages/AdminInstructors.tsx:26-36 | empty lists, dialog closed, form at its initial values (rating 5) |
| AdminInstructors.InstructorsPage.Dispatch | src/pages/AdminInstructors.tsx:13-21 | a request built through a mutable config and the interceptor equals `ApiRequest` with the cookie's current token |
| AdminInstructors.InstructorsPage.SetNewInstructor | src/pages/AdminInstructors.tsx:120-124 | the form takes the edited value |
| AdminInstructors.InstructorsPage.SetDialogOpen | src/pages/AdminInstructors.tsx:108 | the dialog flag takes the given value |
| AdminInstructors.InstructorsPage.FetchInstructors | src/pages/AdminInstructors.tsx:38-45 | GET `/instructor`; the reply replaces the list; a failure keeps it and raises a toast |
| AdminInstructors.InstructorsPage.FetchBookings | src/pages/AdminInstructors.tsx:47-55 | GET `/allBookedInstrector`; only valid bookings are kept; a failure keeps the list |
| AdminInstructors.InstructorsPage.HandleAddInstructor | src/pages/AdminInstructors.tsx:62-78 | an incomplete form sends nothing; a successful add closes the dialog, resets the form and refetches; a failed one changes nothing |
| AdminInstructors.InstructorsPage.HandleRemoveInstructor | src/pages/AdminInstructors.tsx:80-88 | DELETE `/instructor/<id>`, then a refetch on success; the matching toast |
| AdminInstructors.InstructorsPage.UpdateStatus | src/pages/AdminInstructors.tsx:90-98 | POST `{ id, status }` to `/updateStatusIns`, then a bookings refetch on success; the toast names the status |
| Products.SearchProducts | src/pages/Products.tsx:94-96 | the order-preserving subsequence of products whose lower-cased name contains the lower-cased term; the empty term keeps all products |
| Products.SearchIdempotent | src/pages/Products.tsx:92-98 | searching the result again with the same term changes nothing |
| Http.BearerOrEmpty | src/pages/Products.tsx:76 | `Bearer <token>` for a truthy token, otherwise `"Bearer "` (also the localStorage header of src/pages/AdminShop.tsx:60) |
| Products.MissingTokenStillSendsHeader | src/pages/Products.tsx:158 | with no token the Authorization header is still present, as `"Bearer "` |
| Products.SaveTarget | src/pages/Products.tsx:114-117 | edit mode: PUT to `/api/store/update/<editId>`; otherwise POST to `/api/store/add` |
| Products.Preview | src/pages/Products.tsx:132 | the prefix followed by a prefix of the body of exactly min(100, body length) characters: the whole of a short body, the first 100 characters of a long one |
| Products.CheckedReplyError | src/pages/Products.tsx:129-136 | a reply fails iff it is missing, not JSON, unparsable or not ok; a non-JSON reply fails with the handler's prefix and a preview of the body; a non-ok one with the server's message, else the handler's fallback |
| Products.SaveRejectsNonJson | src/pages/Products.tsx:129-133 | a non-JSON answer to a save fails with "Unexpected response: " and at most the first 100 characters of the body, whatever the status |
| Products.DeleteRejectsNonJson | src/pages/Products.tsx:161-165 | a non-JSON answer to a delete fails with "Received non-JSON: " and at most the first 100 characters of the body, whatever the status |
| Products.ProductsPage.constructor | src/pages/Products.tsx:42-57 | empty lists, empty form with price 0, not editing, dialog closed |
| Products.ProductsPage.SetFormData | src/pages/Products.tsx:51 | the form takes the edited value |
| Products.ProductsPage.SetDialogOpen | src/pages/Products.tsx:48 | the dialog flag takes the given value |
| Products.ProductsPage.FetchProducts | src/pages/Products.tsx:59-69 | on success both the full and the shown list become `data.items` or empty, which discards any search; on failure neither changes and a toast shows |
| Products.ProductsPage.FetchOrders | src/pages/Products.tsx:71-90 | an authenticated GET of the orders; the message falls back to "Failed to fetch orders"; loading is false afterwards |
| Products.ProductsPage.HandleSearch | src/pages/Products.tsx:92-98 | the shown list is the search over the full list, never over the previous result |
| Products.ProductsPage.ResetForm | src/pages/Products.tsx:100-111 | empty form with price 0, no edit id, edit mode off and the dialog closed, whatever the prior state |
| Products.ProductsPage.HandleEdit | src/pages/Products.tsx:145-150 | the form becomes the product, edit mode is on for its id, and the dialog opens |
| Products.ProductsPage.HandleAddOrUpdate | src/pages/Products.tsx:113-143 | sends the form to the target `SaveTarget` picks; on success the form resets and the products are refetched; on failure the state is unchanged and the toast carries the save checks of `CheckedReplyError` |
| Products.ProductsPage.HandleDelete | src/pages/Products.tsx:152-174 | nothing is sent without confirmation; otherwise DELETE, then a refetch on success; the toast carries the delete checks of `CheckedReplyError`, with the empty message as fallback |
| Products.ProductsPage.UpdateOrderStatus | src/pages/Products.tsx:176-193 | PUT `{ status }` to `/api/store/updateOrderStatus/<id>`; the orders are refetched on success; the failure toast is not destructive |
| Http.ReadJson | src/pages/Products.tsx:62-63 | a JSON read succeeds iff a reply arrived, parsed and is ok; a non-ok reply fails with the server's message or the fallback |
| AdminShop.CanAddIffNotBlank | src/pages/AdminShop.tsx:47-53 | an item may be added iff its name and its category each contain a non-white-space character; other fields are not checked |
| AdminShop.AddRequest | src/pages/AdminShop.tsx:56-63 | a POST of the form to the relative `/api/store/add`, as JSON, with the localStorage token, or `""` when none is stored, as the bearer |
| AdminShop.CaughtDescription | src/pages/AdminShop.tsx:76 | a non-empty error message is shown as it is; an empty one becomes "An error occurred" |
| AdminShop.LoadedItems | src/pages/AdminShop.tsx:33-42 | the list on mount is `data.items`, or empty when the body has none; the status is not checked; an unparsable or missing reply is a load failure |
| AdminShop.AddError | src/pages/AdminShop.tsx:65-67 | an add fails iff the reply is missing, unparsable or not ok; a non-ok reply fails with the server's message, else "Failed to add item"; the error is never the empty message |
| AdminShop.FallbackNeverShown | src/pages/AdminShop.tsx:73-78 | the "An error occurred" fallback is never shown by the add handler |
| AdminShop.ShopPage.constructor | src/pages/AdminShop.tsx:19-27 | no items, dialog closed, empty form with price 0 |
| AdminShop.ShopPage.SetNewItem | src/pages/AdminShop.tsx:99 | the form takes the edited value |
| AdminShop.ShopPage.SetDialogOpen | src/pages/AdminShop.tsx:86 | the dialog flag takes the given value |
| AdminShop.ShopPage.LoadItems | src/pages/AdminShop.tsx:32-43 | GET `/api/store/items` with no headers; the list becomes `LoadedItems`, or stays as it was with the load-failure toast |
| AdminShop.ShopPage.HandleAddItem | src/pages/AdminShop.tsx:46-80 | a blank name or category sends nothing; a success appends the returned item after the unchanged earlier items, resets the form and closes the dialog; a failure changes nothing |
| AdminOrders.StatusName | src/pages/AdminOrders.tsx:16 | each status is one of the five strings |
| AdminOrders.StatusNameInjective | src/pages/AdminOrders.tsx:16 | different statuses have different strings |
| AdminOrders.FilteredOrders | src/pages/AdminOrders.tsx:65-72 | an order-preserving subsequence, never a pending order; every shown order matches the status filter and its name or e-mail contains the term; every order passing all three tests is shown |
| AdminOrders.PendingFilterShowsNothing | src/pages/AdminOrders.tsx:66-69 | a status filter of "pending", which the page's select never offers, would show nothing |
| AdminOrders.UnfilteredShowsAllButPending | src/pages/AdminOrders.tsx:66-71 | with "all" and an empty term, exactly the non-pending orders are shown |
| AdminOrders.MarkedPendingIsHidden | src/pages/AdminOrders.tsx:65-87 | an order moved to pending disappears from every view |
| AdminOrders.StatusColor | src/pages/AdminOrders.tsx:74-82 | confirmed→default, shipped→secondary, cancelled→destructive, and every other string→outline |
| AdminOrders.WithStatus | src/pages/AdminOrders.tsx:85-87 | same length; orders with the id take the new status and keep every other field; all other orders are unchanged |
| AdminOrders.WithStatusIdempotent | src/pages/AdminOrders.tsx:84-87 | applying the same update twice equals applying it once |
| AdminOrders.WithStatusUnknownId | src/pages/AdminOrders.tsx:84-87 | an id no order has leaves the list unchanged |
| AdminOrders.OrdersPage.constructor | src/pages/AdminOrders.tsx:21-61 | the four seeded orders, filter "all", empty search |
| AdminOrders.OrdersPage.SetStatusFilter | src/pages/AdminOrders.tsx:60 | the filter takes the chosen value |
| AdminOrders.OrdersPage.SetSearchTerm | src/pages/AdminOrders.tsx:61 | the search takes the typed value |
| AdminOrders.OrdersPage.UpdateOrderStatus | src/pages/AdminOrders.tsx:84-92 | the orders become `WithStatus` of the old ones; an order set to pending leaves the rendered list under the current filter and search; the success toast always shows |
| Users.FilteredUsers | src/pages/Users.tsx:39-43 | an order-preserving subsequence; a user is shown iff their lower-cased name or e-mail contains the lower-cased term |
| Users.EmptySearchShowsUsersWithAField | src/pages/Users.tsx:41-42 | with an empty search, exactly the users with a name or an e-mail are shown; one with neither never is |
| Users.SearchIgnoresTermCase | src/pages/Users.tsx:41-42 | lower-casing the term first does not change the result |
| Users.UsersRequest | src/pages/Users.tsx:21-29 | one Authorization header `Bearer <token>`, and the literal "Bearer undefined" when there is no token |
| Users.FetchUsers | src/pages/Users.tsx:30-33 | a fulfilled fetch replaces the list with the reply's data; a rejected one leaves it as it was; `FetchThenSearch` is its partner |
| Users.FetchThenSearch | src/pages/Users.tsx:30-43 | after a failed fetch the shown list is what it was; after a successful one it is the search over the reply's data |
| AdminSidebar.MainItem | src/components/AdminSidebar.tsx:86 | a main entry gets `end` iff its URL is "/" |
| AdminSidebar.OnlyRootIsExact | src/components/AdminSidebar.tsx:28-40 | among all entries only the dashboard link, the first main item, matches exactly |
| AdminSidebar.Collapsed | src/components/AdminSidebar.tsx:44 | collapsed exactly when the state is "collapsed"; `CollapsedRendering` is its partner |
| AdminSidebar.WidthClass | src/components/AdminSidebar.tsx:59 | "w-16" when collapsed and "w-64" otherwise; `CollapsedRendering` is its partner |
| AdminSidebar.RenderedTitle | src/components/AdminSidebar.tsx:90 | an entry shows a label exactly when the sidebar is expanded, and the label is the entry's title; `CollapsedRendering` is its partner |
| AdminSidebar.CollapsedRendering | src/components/AdminSidebar.tsx:44-90 | the narrow "w-16" width, every entry's label hidden, and the "collapsed" state go together; an expanded sidebar labels each entry with its own title |
| AdminSidebar.IsActive | src/components/AdminSidebar.tsx:48-51 | "/" is active iff the path is exactly "/"; any other entry is active iff the path starts with it |
| AdminSidebar.ActiveOnOwnPath | src/components/AdminSidebar.tsx:48-51 | every entry is active on its own path |
| AdminSidebar.PrefixIsRaw | src/components/AdminSidebar.tsx:50 | the prefix test is on characters: "/users" is active on "/usersX"; "/" is not active on "/users" |
| AdminSidebar.ActiveBelowPath | src/components/AdminSidebar.tsx:50 | a non-root entry stays active on any extension of its path |
| AdminSidebar.NavClass | src/components/AdminSidebar.tsx:53-56 | the accent classes exactly when active and the hover classes exactly when idle; `NavClassDistinguishes`: the two never coincide |
| AdminSidebar.NavClassDistinguishes | src/components/AdminSidebar.tsx:53-56 | an active and an idle link never get the same class string |
| Js.Lower | src/pages/Products.tsx:95 | `toLowerCase` keeps the length and lower-cases each character |
| Js.LowerIdempotent | src/pages/Users.tsx:41 | lower-casing twice equals lower-casing once |
| Js.Take | src/pages/Products.tsx:132 | `slice(0, n)` is a prefix of at most `n` characters, all of a shorter string |
| Js.Trim | src/pages/AdminShop.tsx:47 | `trim` yields an infix of the string, with only white space before and after it, that neither starts nor ends with white space |
| Js.TrimEmptyIffBlank | src/pages/AdminShop.tsx:47 | the trimmed string is empty iff every character is white space |
| Js.Split | src/pages/AdminInstructors.tsx:138 | `split` yields at least one piece; no piece holds the separator; joining the pieces gives back the string |
| Lists.Filter | src/pages/AdminOrders.tsx:65 | an order-preserving subsequence holding exactly the elements that satisfy the predicate |
| Lists.FilterIdempotent | src/pages/Products.tsx:94 | filtering twice with the same predicate equals filtering once |
| Lists.FilterMultiplicity | src/pages/AdminInstructors.tsx:50 | an element that passes the test keeps every occurrence; one that fails keeps none |

## Left out

- HTTP transport: fetch, axios, status codes and asynchronous ordering. Each reply is an input and each toast is an output value. Refetches that a handler starts without awaiting appear only as requests it issues; their own replies are separate handler calls.
- JSX rendering and styling, except the class strings and labels listed in the table above.
- Navigation is modelled as the path a handler returns; the router is not modelled.
- The router's `NavLink` matching, which decides the sidebar's highlighting when the page renders, is not modelled.
- `window.confirm` is modelled as a boolean input.
- `loginAdmin` in src/lib/auth.ts is left out: its body is commented out, so it does nothing.
- `ProtectedRoute` and the route table in src/App.tsx are not part of this model.
- Floating point: the instructor rating is an integer or NaN, enough for its truthiness test. Prices are integers or raw input text.
- `toLowerCase` is modelled as ASCII case folding. Strings are sequences of characters with no UTF-16 code-unit structure, so `n[0]` and `slice` count characters.
- axios joins `baseURL` and a path without doubling a slash. The model concatenates the two strings.
- Cookie expiry is counted in whole days, passed in by the caller. A session cookie never expires in the model; in a browser it ends with the session.
- The pages type a reply's fields loosely, and the server may send other shapes (`response.data` not an array, `b.userId` not an object). The model admits only the shapes the pages read.
- The console logging in src/pages/Users.tsx is left out.
