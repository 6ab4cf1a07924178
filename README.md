# SafeKab Market — a Dafny model of the shop's core

SafeKab Market is a small web shop: a React storefront and admin dashboard
talking to a Spring Boot REST backend. This project models, in Dafny, the
parts of both sides that decide what the shop does:

- **Backend.** The product and order entities and their price arithmetic
  (net price plus VAT rounded half up with Java integer division). The cart
  service (per-user carts, set and delta quantity updates, single and bulk
  removal). The product service (create with a unique-name constraint, and
  partial update). The order service (page-size caps, order creation from
  the request's items, status updates). The user service (lookup and partial update).
  The authentication service (login, register, refresh-token rotation with a
  two-minute grace window, logout). The bearer-token filter. The JWT token
  accessors. The builder choice and CORS origin parsing of the security
  configuration.
- **Frontend.** The API client in `services/api.ts`: header merging, error
  extraction, the 401 → refresh → retry-once path, and the single-flight
  refresh slot. The `useApi` hook: storing tokens after login or register,
  refresh with its 404 recovery, and logout. The auth context, with its
  hydration from `localStorage`. Token decoding and the expiry check. Gross
  prices of products and cart lines. The cart page: selection, subtotal,
  total, checkout guard, quantity clamping. The admin order card's status
  steps and the orders tab's pagination.

Each source file is one Dafny module:

- `product_model.dfy`, `cart_item_model.dfy`, `jwt.dfy`, `auth_context.dfy`,
  `api.dfy`, `cart_page.dfy`, `order_card.dfy`, `orders_tab.dfy` model the
  frontend files of the same name.
- `client.dfy` holds both `ApiService` (`services/api.ts`) and `UseApi`
  (`hooks/useApi.tsx`). The two call each other: the service gets the hook's
  refresh as a callback, and the hook calls the service. Dafny modules cannot
  import each other cyclically.
- `product_entity.dfy`, `order_entity.dfy`, `cart_service.dfy`,
  `product_service.dfy`, `order_service.dfy`, `user_service.dfy`,
  `auth_service.dfy`, `token_filter.dfy`, `jwt_token.dfy` and
  `security_config.dfy` model the backend classes of the same name.
- `wrappers.dfy` (Option/Result), `order_status.dfy` (tracking and payment
  status enums) and `failures.dfy` (`ApiException` with an HTTP status, or a
  generic runtime exception, which the backend's handler reports as 500) are
  shared.
- `browser.dfy` is the environment the frontend runs in: `localStorage` as a
  map, a fixed clock, and a scripted network. Each `fetch` consumes the next
  scripted response (network failure once the script is exhausted) and is
  logged with its request.

Stateful code is modelled as classes whose methods state their whole new
state. The backend services own their repositories as `map`/`seq` fields.
The frontend's `ApiService` keeps the refresh slot as the id of the promise
in flight. `AuthProvider` keeps `user`, `tokenData`, `tokenRef` and
`loading`. Its invariant `AgreesWith(storage)` says the three auth fields
and `localStorage` hold the same token pair, and the user decoded from it.
Every client method preserves that invariant.

The external libraries a flow depends on are parameters of the model:

- JWT decoding in the browser (`jwt-decode`);
- the backend's token parser and token factory (jjwt);
- the password encoder and its matcher (bcrypt);
- the clock.

The random `jti` that makes each issued token distinct is a counter
(`nonce`) in `AuthService`.

## Model

| member | source | states |
|---|---|---|
| ProductModel.FloorGross | frontend/src/models/Product.tsx:20-24 | the floor of net + net·vat/100 + 0.5 is the one integer within 1 below that real sum |
| ProductModel.GetGrossPrice | frontend/src/models/Product.tsx:20-24 | the gross price from the real-valued formula equals net + (net·vat + 50) div 100 |
| ProductModel.FloorGrossIsIntegerFormula | frontend/src/models/Product.tsx:20-24 | the floating-point rounding of the storefront coincides with an integer formula for every net price and rate |
| ProductModel.GrossRoundsHalfUp | frontend/src/models/Product.tsx:20-24 | the VAT part added is the amount·vat/100 rounded half up |
| ProductModel.GrossWithoutVat | frontend/src/models/Product.tsx:20-24 | a zero VAT rate leaves the gross price equal to the net price |
| ProductModel.GrossAtLeastNet | frontend/src/models/Product.tsx:20-24 | for non-negative price and rate the gross price is never below the net price |
| ProductModel.GrossMonotoneInNet | frontend/src/models/Product.tsx:20-24 | at a fixed non-negative rate a higher net price never gives a lower gross price |
| CartItemModel.GetGrossPrice | frontend/src/models/CartItem.tsx:15-20 | a cart line's gross price rounds VAT once on the whole line net·quantity |
| CartItemModel.EmptyLineIsFree | frontend/src/models/CartItem.tsx:15-20 | a line of quantity 0 costs 0 |
| CartItemModel.SingleUnitMatchesProduct | frontend/src/models/CartItem.tsx:15-20 | a one-unit line costs exactly the product's gross price |
| CartItemModel.LineAtLeastNet | frontend/src/models/CartItem.tsx:15-20 | a line costs at least its net total, and exactly that at VAT 0 |
| ProductEntity.JavaDiv | backend/src/main/java/com/safekab/market/entity/Product.java:60-63 | Java long division truncates toward zero: the remainder a − b·q lies in [0, b) for a non-negative dividend and in (−b, 0] for a negative one, so it has the dividend's sign and is smaller than the divisor |
| ProductEntity.VatAmount | backend/src/main/java/com/safekab/market/entity/Product.java:60-63 | for non-negative data the VAT amount is (vat·net + 50) div 100 |
| ProductEntity.GetPrice | backend/src/main/java/com/safekab/market/entity/Product.java:60-63 | the price exceeds the net price by (vatRate·netPrice + 50)/100 truncated toward zero, for every sign; for non-negative data that VAT amount is within half a unit of vat·net/100 |
| ProductEntity.VatRoundsHalfUp | backend/src/main/java/com/safekab/market/entity/Product.java:60-63 | the VAT amount is within half a unit of vat·net/100 (half up) |
| ProductEntity.PriceWithoutVat | backend/src/main/java/com/safekab/market/entity/Product.java:60-63 | VAT 0 means price equals net price |
| ProductEntity.PriceAtLeastNet | backend/src/main/java/com/safekab/market/entity/Product.java:60-63 | non-negative data never gives a price below the net price |
| ProductEntity.FrontendAgreesWithBackend | backend/src/main/java/com/safekab/market/entity/Product.java:60-63 | for non-negative data the storefront's gross price (frontend/src/models/Product.tsx:20-24) equals the backend's price |
| ProductEntity.FrontendDisagreesOnNegativeNet | backend/src/main/java/com/safekab/market/entity/Product.java:60-63 | net −1 at VAT 100: the backend's truncation gives −1, the storefront's floor gives −2 |
| OrderEntity.LinesTotalAppend | backend/src/main/java/com/safekab/market/entity/Order.java:81-86 | the order's lines total is additive over concatenation |
| OrderEntity.AddingLineNeverLowersTotal | backend/src/main/java/com/safekab/market/entity/Order.java:73-86 | adding a line of non-negative price and quantity never lowers the total |
| OrderEntity.LinesTotal | backend/src/main/java/com/safekab/market/entity/Order.java:81-86 | the sum of price·quantity over the lines is non-negative when every line is |
| OrderEntity.Order.GetTotalPrice | backend/src/main/java/com/safekab/market/entity/Order.java:81-86 | the total of non-negative lines is at least the shipping cost |
| OrderEntity.Order.constructor | backend/src/main/java/com/safekab/market/entity/Order.java:49-71 | a new order has no user, lines, statuses or promotion, shipping 0, total 0 |
| OrderEntity.Order.AddOrderProduct | backend/src/main/java/com/safekab/market/entity/Order.java:73-79 | appends exactly the one line, and the total grows by price·quantity |
| OrderEntity.LineVersusOrderRounding | backend/src/main/java/com/safekab/market/entity/Order.java:81-86 | the cart page's per-line rounding and the order's per-unit rounding differ by at most half a unit per item: −q ≤ 2·(line gross − q·unit price) ≤ q |
| OrderEntity.LineAndOrderRoundingDiffer | backend/src/main/java/com/safekab/market/entity/Order.java:81-86 | 3 units at net 1 and VAT 20 cost 4 on the cart page and 3 in the order |
| JwtToken.NonNull | backend/src/main/java/com/safekab/market/token/JwtToken.java:38-48 | dropping null roles never lengthens the list |
| JwtToken.NonNullMembers | backend/src/main/java/com/safekab/market/token/JwtToken.java:38-48 | a role is kept iff it occurs non-null in the claim |
| JwtToken.NonNullKeepsExactly | backend/src/main/java/com/safekab/market/token/JwtToken.java:38-48 | the same for all roles at once |
| JwtToken.NonNullAppend | backend/src/main/java/com/safekab/market/token/JwtToken.java:38-48 | the filter distributes over concatenation, so order is kept |
| JwtToken.GetToken | backend/src/main/java/com/safekab/market/token/JwtToken.java:23-26 | getToken is the token's text |
| JwtToken.GetSubject | backend/src/main/java/com/safekab/market/token/JwtToken.java:55-58 | getSubject is the sub claim, absent when the claim is |
| JwtToken.GetId | backend/src/main/java/com/safekab/market/token/JwtToken.java:75-78 | getId is the jti claim, absent when the claim is |
| JwtToken.GetType | backend/src/main/java/com/safekab/market/token/JwtToken.java:28-31 | the token type reported is always "Bearer" |
| JwtToken.GetRoles | backend/src/main/java/com/safekab/market/token/JwtToken.java:38-48 | no roles claim gives an empty list; otherwise exactly the non-null entries |
| JwtToken.GetString | backend/src/main/java/com/safekab/market/token/JwtToken.java:75-83 | the string form of a token is its id claim |
| JwtToken.IsValid | backend/src/main/java/com/safekab/market/token/JwtToken.java:85-88 | valid iff not yet past expiration and of the requested type |
| JwtToken.ClientAndServerExpiry | backend/src/main/java/com/safekab/market/token/JwtToken.java:85-88 | the server (valid iff now ≤ exp) and the browser's check (frontend/src/lib/jwt.ts:27-34, expired iff now ≥ exp·1000) agree except at the exact expiry millisecond, where the server still accepts the token the browser calls expired |
| Jwt.ExtractDataFromToken | frontend/src/lib/jwt.ts:10-25 | an undecodable token gives empty id, no roles and exp 0; otherwise the decoded sub and exp, and the roles or [] |
| Jwt.IsTokenExpired | frontend/src/lib/jwt.ts:27-34 | undecodable means expired; otherwise expired iff now ≥ exp·1000, with a missing or zero exp counting as expired |
| Jwt.ExpiredAtBoundary | frontend/src/lib/jwt.ts:27-34 | at now = exp·1000 the token already counts as expired |
| Jwt.ExpiryIsPermanent | frontend/src/lib/jwt.ts:27-34 | once expired, a token stays expired at every later time |
| Jwt.LiveExactlyBeforeExpiry | frontend/src/lib/jwt.ts:27-34 | with a non-zero exp, the token is live iff now < exp·1000 |
| TokenFilter.ExtractToken | backend/src/main/java/com/safekab/market/middleware/TokenAuthenticationFilter.java:64-70 | a token is extracted iff the header starts with "Bearer ", and it is exactly the rest of the header |
| TokenFilter.BearerHeaderRoundTrip | backend/src/main/java/com/safekab/market/middleware/TokenAuthenticationFilter.java:64-70 | extracting from "Bearer " + t gives back t |
| TokenFilter.ParseLong | backend/src/main/java/com/safekab/market/middleware/TokenAuthenticationFilter.java:46 | Long.valueOf succeeds iff the text is an optional '+' or '-', at least one digit, and a value within the long range (WellFormedLong); the value is the digits' value with the sign applied |
| TokenFilter.DigitChar | backend/src/main/java/com/safekab/market/middleware/TokenAuthenticationFilter.java:46 | digit characters carry their value (used to print subjects) |
| TokenFilter.NaturalString | backend/src/main/java/com/safekab/market/middleware/TokenAuthenticationFilter.java:46 | a natural number prints as a non-empty digit string |
| TokenFilter.NaturalStringValue | backend/src/main/java/com/safekab/market/middleware/TokenAuthenticationFilter.java:46 | printing then reading digits is the identity |
| TokenFilter.ParseLongRoundTrip | backend/src/main/java/com/safekab/market/middleware/TokenAuthenticationFilter.java:46 | every long printed as a subject (AuthService's String.valueOf) is read back by Long.valueOf as itself |
| TokenFilter.Authorities | backend/src/main/java/com/safekab/market/middleware/TokenAuthenticationFilter.java:47-51 | each role r becomes the authority "ROLE_" + r, in order; no roles gives none |
| TokenFilter.Prefixed | backend/src/main/java/com/safekab/market/middleware/TokenAuthenticationFilter.java:47-51 | the prefixing keeps length and order |
| TokenFilter.Decide | backend/src/main/java/com/safekab/market/middleware/TokenAuthenticationFilter.java:31-62 | a missing or empty token passes on anonymously; a non-empty token is answered 401 iff it cannot be parsed, is not a live access token, or its subject is not a long; otherwise it passes on authenticated, as the parsed id with the prefixed roles |
| TokenFilter.IssuedAccessTokenAuthenticates | backend/src/main/java/com/safekab/market/middleware/TokenAuthenticationFilter.java:31-62 | a live access token whose subject is a printed long authenticates as that id |
| TokenFilter.RefreshTokenIsRejected | backend/src/main/java/com/safekab/market/middleware/TokenAuthenticationFilter.java:43-45 | a refresh token presented as a bearer token is always answered 401 |
| TokenFilter.NonNumericSubjectIsRejected | backend/src/main/java/com/safekab/market/middleware/TokenAuthenticationFilter.java:46-61 | a live access token whose subject is missing or not a long falls into the catch and is answered 401 |
| TokenFilter.HttpResponse.constructor | backend/src/main/java/com/safekab/market/middleware/TokenAuthenticationFilter.java:31 | a response starts with status 200 |
| TokenFilter.SecurityContext.constructor | backend/src/main/java/com/safekab/market/middleware/TokenAuthenticationFilter.java:46-51 | a security context starts unauthenticated |
| TokenFilter.TokenAuthenticationFilter.constructor | backend/src/main/java/com/safekab/market/middleware/TokenAuthenticationFilter.java:25-29 | the filter keeps the token builder it is given |
| TokenFilter.TokenAuthenticationFilter.DoFilterInternal | backend/src/main/java/com/safekab/market/middleware/TokenAuthenticationFilter.java:31-62 | the chain continues iff Decide passes on; a rejection sets 401 and leaves the context alone; a pass sets the context to exactly the decided authentication, or leaves it |
| SecurityConfig.TokenBuilder | backend/src/main/java/com/safekab/market/config/SecurityConfig.java:28-40 | a JWT builder with the configured values iff the type equals "JWT" ignoring case; otherwise the "Unsupported token type" error naming the type |
| SecurityConfig.DefaultsSelectJwt | backend/src/main/java/com/safekab/market/config/SecurityConfig.java:30-39 | the default configuration builds a JWT builder |
| SecurityConfig.TokenTypeSpellings | backend/src/main/java/com/safekab/market/config/SecurityConfig.java:36-39 | every case spelling of "jwt" is accepted, any other length rejected |
| SecurityConfig.Split | backend/src/main/java/com/safekab/market/config/SecurityConfig.java:63 | splitting on commas yields at least one piece |
| SecurityConfig.SplitPieceThenRest | backend/src/main/java/com/safekab/market/config/SecurityConfig.java:63 | a comma-free piece followed by a comma splits off as the first piece |
| SecurityConfig.SplitJoin | backend/src/main/java/com/safekab/market/config/SecurityConfig.java:63 | splitting a comma-joined list of comma-free pieces gives the pieces back |
| SecurityConfig.TrimStart | backend/src/main/java/com/safekab/market/config/SecurityConfig.java:64 | removes a prefix made only of characters ≤ ' ', after which the text starts with a character above ' ' or is empty |
| SecurityConfig.TrimEnd | backend/src/main/java/com/safekab/market/config/SecurityConfig.java:64 | removes a suffix made only of characters ≤ ' ', after which the text ends with a character above ' ' or is empty |
| SecurityConfig.Trim | backend/src/main/java/com/safekab/market/config/SecurityConfig.java:64 | the result is empty iff the input is all characters ≤ ' '; otherwise both its ends are above ' ' |
| SecurityConfig.TrimStartPadded | backend/src/main/java/com/safekab/market/config/SecurityConfig.java:64 | leading blank padding before a text that does not start blank is removed exactly |
| SecurityConfig.TrimEndPadded | backend/src/main/java/com/safekab/market/config/SecurityConfig.java:64 | trailing blank padding after a text that does not end blank is removed exactly |
| SecurityConfig.TrimPadded | backend/src/main/java/com/safekab/market/config/SecurityConfig.java:64 | trimming blank padding + a clean text + blank padding gives exactly the clean text, which with Trim's blank case fixes trim on every string |
| SecurityConfig.TrimClean | backend/src/main/java/com/safekab/market/config/SecurityConfig.java:64 | trimming a string without whitespace ends leaves it unchanged |
| SecurityConfig.KeptOrigins | backend/src/main/java/com/safekab/market/config/SecurityConfig.java:63-68 | the origins kept are trimmed, non-empty, and no more than the pieces (order and content are stated by KeptOriginsAppend and KeptOriginsSingle) |
| SecurityConfig.KeptOriginsOfClean | backend/src/main/java/com/safekab/market/config/SecurityConfig.java:63-68 | pieces that are already trimmed and non-empty are all kept as they are |
| SecurityConfig.KeptOriginsAppend | backend/src/main/java/com/safekab/market/config/SecurityConfig.java:63-68 | the loop handles pieces one at a time, in order: the origins of a concatenation are those of the first part followed by those of the second |
| SecurityConfig.KeptOriginsSingle | backend/src/main/java/com/safekab/market/config/SecurityConfig.java:64-67 | one piece adds its trimmed text, or nothing when that is empty |
| SecurityConfig.KeptOriginsSnoc | backend/src/main/java/com/safekab/market/config/SecurityConfig.java:63-68 | one more piece at the end of the list adds its trimmed text after the others' origins, or nothing when that text is empty |
| SecurityConfig.KeptOriginsOfEntries | backend/src/main/java/com/safekab/market/config/SecurityConfig.java:63-68 | entries that are blank, or an origin in blank padding, yield exactly their origins in order |
| SecurityConfig.OriginsRoundTrip | backend/src/main/java/com/safekab/market/config/SecurityConfig.java:59-74 | a list of clean origins written comma-separated in the property is read back exactly |
| SecurityConfig.OriginsOfPaddedEntries | backend/src/main/java/com/safekab/market/config/SecurityConfig.java:59-74 | any property written as comma-separated entries, each blank or a clean origin with blank padding, registers exactly those origins in their order |
| SecurityConfig.AllowedOrigins | backend/src/main/java/com/safekab/market/config/SecurityConfig.java:59-74 | the loop computes exactly Origins(property), none of them empty |
| CartService.SetLine | backend/src/main/java/com/safekab/market/service/cart/CartService.java:68-93 | a quantity below 1 removes the line, otherwise sets it; other lines unchanged; valid carts stay valid |
| CartService.ApplyDelta | backend/src/main/java/com/safekab/market/service/cart/CartService.java:41-66 | the line's current quantity (0 when absent) moved by the delta, the line removed below 1 (characterised by DeltaIsSetRelative) |
| CartService.DeltaIsSetRelative | backend/src/main/java/com/safekab/market/service/cart/CartService.java:41-93 | a delta of (q − current) is the same as setting q |
| CartService.DeltaUndo | backend/src/main/java/com/safekab/market/service/cart/CartService.java:41-66 | a delta followed by its negation restores the cart while the line stays at 1 or more |
| CartService.ZeroDeltaIsIdentity | backend/src/main/java/com/safekab/market/service/cart/CartService.java:41-66 | a zero delta leaves a valid cart unchanged |
| CartService.SetIsIdempotent | backend/src/main/java/com/safekab/market/service/cart/CartService.java:68-93 | setting the same quantity twice is setting it once |
| CartService.RemoveEach | backend/src/main/java/com/safekab/market/service/cart/CartService.java:106-123 | the lines of the ids before the first null or unknown id are deleted and all others stay; it succeeds iff every id is non-null and a product; a null id fails with the generic exception, an unknown product with 404 |
| CartService.FirstBad | backend/src/main/java/com/safekab/market/service/cart/CartService.java:112-115 | the position of the first null or unknown id: all before it are deletable, it is not |
| CartService.RemovableIdsSucceed | backend/src/main/java/com/safekab/market/service/cart/CartService.java:112-118 | a list of non-null product ids succeeds and deletes exactly their lines |
| CartService.BadIdStopsRemoval | backend/src/main/java/com/safekab/market/service/cart/CartService.java:112-122 | the k-th id being the first bad one leaves exactly the lines of ids 0..k−1 deleted and reports the error of its kind |
| CartService.CartService.CartOf | backend/src/main/java/com/safekab/market/service/cart/CartService.java:31-39 | the user's cart lines, empty when the user has no cart yet |
| CartService.CartService.constructor | backend/src/main/java/com/safekab/market/service/cart/CartService.java:20-29 | starts with no carts |
| CartService.CartService.GetCartByUser | backend/src/main/java/com/safekab/market/service/cart/CartService.java:31-39 | unknown user fails; otherwise returns the user's cart, creating an empty one if missing |
| CartService.CartService.DeltaProductQuantity | backend/src/main/java/com/safekab/market/service/cart/CartService.java:41-66 | unknown user 404; unknown product 404 after the cart exists; otherwise the line moves by the delta and is removed below 1 |
| CartService.CartService.UpdateProductQuantity | backend/src/main/java/com/safekab/market/service/cart/CartService.java:68-93 | the same error cases; otherwise the line is set, or removed below 1 |
| CartService.CartService.RemoveProductFromCart | backend/src/main/java/com/safekab/market/service/cart/CartService.java:95-104 | each missing piece gives its own error and no change; succeeds iff the cart holds the product, then deletes exactly that line |
| CartService.CartService.RemoveProductsFromCart | backend/src/main/java/com/safekab/market/service/cart/CartService.java:106-123 | no id list changes nothing; otherwise the cart becomes RemoveEach's result and its failure is reported |
| ProductService.ToImages | backend/src/main/java/com/safekab/market/service/ProductService.java:53-65 | one image per media entry, in order, with the entry's url, alt and display order |
| ProductService.ApplyUpdate | backend/src/main/java/com/safekab/market/service/ProductService.java:77-115 | each non-null, non-empty text field and each non-null number ≥ 0 replaces the old value, anything else is kept (a text of spaces is taken, a negative number is ignored); given media replace the images |
| ProductService.UpdateIsIdempotent | backend/src/main/java/com/safekab/market/service/ProductService.java:77-115 | applying the same update twice is applying it once |
| ProductService.IgnoredRequestChangesNothing | backend/src/main/java/com/safekab/market/service/ProductService.java:77-115 | an update whose texts are null or empty and whose numbers are null or negative leaves the product as it was |
| ProductService.PriceOnlyFollowsPriceFields | backend/src/main/java/com/safekab/market/service/ProductService.java:77-94 | without a new net price or VAT rate the product's price is unchanged |
| ProductService.EmptyMediaClearsImages | backend/src/main/java/com/safekab/market/service/ProductService.java:97-115 | an empty media list removes all images |
| ProductService.ProductService.constructor | backend/src/main/java/com/safekab/market/service/ProductService.java:24-30 | starts with no products |
| ProductService.ProductService.BuildImages | backend/src/main/java/com/safekab/market/service/ProductService.java:53-65 | the loop builds exactly ToImages(media) |
| ProductService.ProductService.CreateProduct | backend/src/main/java/com/safekab/market/service/ProductService.java:40-70 | a taken name gives 409 with nothing saved; otherwise exactly one new product with the request's fields and its media as images (none for empty media) |
| ProductService.ProductService.UpdateProduct | backend/src/main/java/com/safekab/market/service/ProductService.java:72-118 | unknown id 404; a rename onto a taken name fails and is rolled back; otherwise only that product becomes ApplyUpdate of it |
| OrderService.PageRequestOf | backend/src/main/java/com/safekab/market/service/OrderService.java:39 | a page request exists iff page ≥ 0 and size ≥ 1 |
| OrderService.UserPageSize | backend/src/main/java/com/safekab/market/service/OrderService.java:39 | the size is min(size, 10) |
| OrderService.AdminPageSize | backend/src/main/java/com/safekab/market/service/OrderService.java:48 | the size is min(size, 50) |
| OrderService.UserOrdersPage | backend/src/main/java/com/safekab/market/service/OrderService.java:38-41 | a user never gets more than 10 orders a page; smaller sizes are honoured |
| OrderService.AdminOrdersPage | backend/src/main/java/com/safekab/market/service/OrderService.java:46-50 | an admin never gets more than 50 orders a page; smaller sizes are honoured |
| OrderService.KnownLines | backend/src/main/java/com/safekab/market/service/OrderService.java:90-94 | lines come only from items whose product exists, at most one per item; with KnownItemIsAdded and UnknownItemIsSkipped this fixes the lines of every item list, in order and with quantities |
| OrderService.AllKnownLines | backend/src/main/java/com/safekab/market/service/OrderService.java:90-94 | when every product exists, every item becomes its line, in order |
| OrderService.UnknownItemIsSkipped | backend/src/main/java/com/safekab/market/service/OrderService.java:90-94 | an item with an unknown product adds nothing |
| OrderService.KnownItemIsAdded | backend/src/main/java/com/safekab/market/service/OrderService.java:90-94 | an item whose product exists adds one line for that product with the item's quantity, after the lines of the earlier items |
| OrderService.ShippingFromConfig | backend/src/main/java/com/safekab/market/service/OrderService.java:103-107 | shipping is the first config's value, or 0 without one |
| OrderService.OrderService.constructor | backend/src/main/java/com/safekab/market/service/OrderService.java:25-36 | starts with no orders |
| OrderService.OrderService.CreateOrder | backend/src/main/java/com/safekab/market/service/OrderService.java:86-110 | unknown user fails with nothing saved; otherwise one new order with the known lines, NOT_SHIPPED and UNPAID, the promotion code and the configured shipping, whose total is the lines' total plus shipping |
| OrderService.OrderService.AddKnownLines | backend/src/main/java/com/safekab/market/service/OrderService.java:90-94 | the loop adds exactly KnownLines(items) to the order |
| OrderService.OrderService.UpdateOrderStatus | backend/src/main/java/com/safekab/market/service/OrderService.java:76-81 | unknown order 404; otherwise only its tracking status changes |
| UserService.IndexOf | backend/src/main/java/com/safekab/market/service/UserService.java:22-26 | the position of the first user with the key (an id, or an email as in AuthService.java:62), or None exactly when no user has it |
| UserService.ApplyUserUpdate | backend/src/main/java/com/safekab/market/service/UserService.java:28-41 | a non-null, non-empty username, password and mobile number replace the old ones; id, email and roles never change |
| UserService.UserUpdateIsIdempotent | backend/src/main/java/com/safekab/market/service/UserService.java:28-41 | applying the same update twice is applying it once |
| UserService.EmptyUserRequestChangesNothing | backend/src/main/java/com/safekab/market/service/UserService.java:28-41 | a request whose fields are all empty or null leaves the user as it was |
| UserService.UserService.constructor | backend/src/main/java/com/safekab/market/service/UserService.java:16-20 | keeps the given valid user table |
| UserService.UserService.GetUser | backend/src/main/java/com/safekab/market/service/UserService.java:22-26 | a response exists iff a user has that id |
| UserService.UserService.UpdateUser | backend/src/main/java/com/safekab/market/service/UserService.java:28-41 | unknown id changes nothing, as the code does; a username conflict fails and saves nothing; otherwise only that user becomes ApplyUserUpdate of it |
| AuthService.SaveRefreshToken | backend/src/main/java/com/safekab/market/service/AuthService.java:52-59 | stores the token for the user, unblocked, expiring at now + the configured expiry; other tokens unchanged |
| AuthService.RefreshCheck | backend/src/main/java/com/safekab/market/service/AuthService.java:103-122 | the checks in order: unparsable or not a live refresh token 401, unknown 404, blocked 401, expired 401; ok iff all pass, giving the stored entry |
| AuthService.GraceWindow | backend/src/main/java/com/safekab/market/service/AuthService.java:103-135 | after one rotation, with no further use of the old token, it refreshes until two minutes after that rotation and then is "Refresh token expired"; the new one lasts the configured expiry (a reuse inside the window restarts it, see ReuseRestartsGrace) |
| AuthService.ReuseRestartsGrace | backend/src/main/java/com/safekab/market/service/AuthService.java:103-135 | reusing the old token inside its grace window passes the checks and rotates again, which moves its expiry to two minutes after the reuse, so a token reused at least every two minutes keeps working |
| AuthService.LoggedOutTokenIsNotFound | backend/src/main/java/com/safekab/market/service/AuthService.java:111-112 | a deleted (logged out) token is "Refresh token not found" 404 |
| AuthService.AccessTokenCannotRefresh | backend/src/main/java/com/safekab/market/service/AuthService.java:107-109 | an access token is never accepted as a refresh token |
| AuthService.RotateKeepsOwners | backend/src/main/java/com/safekab/market/service/AuthService.java:130-131 | rotation keeps every stored token owned by a known user |
| AuthService.AppendKeepsOwners | backend/src/main/java/com/safekab/market/service/AuthService.java:94 | registering a user keeps every token's owner known and makes the new user findable |
| AuthService.AppendKeepsUsersValid | backend/src/main/java/com/safekab/market/service/AuthService.java:76-94 | a fresh id, a free username and a free email keep the user table's uniqueness |
| AuthService.AuthService.constructor | backend/src/main/java/com/safekab/market/service/AuthService.java:32-50 | keeps the configuration and collaborators, with an empty refresh-token table |
| AuthService.AuthService.NewToken | backend/src/main/java/com/safekab/market/token/JwtBuilder.java:33-37 | issues the factory's token for the printed user id, type and roles with a fresh jti |
| AuthService.AuthService.Login | backend/src/main/java/com/safekab/market/service/AuthService.java:61-74 | an unknown email or wrong password is 401 "Invalid username or password" with nothing saved; otherwise an access and a refresh token are issued and the refresh token is stored |
| AuthService.AuthService.Register | backend/src/main/java/com/safekab/market/service/AuthService.java:76-100 | a taken username is 409, a missing USER role 500, a taken email fails on the unique constraint, each with nothing saved; otherwise exactly one new user with the encoded password and role USER, and tokens as in login |
| AuthService.AuthService.RefreshToken | backend/src/main/java/com/safekab/market/service/AuthService.java:103-135 | fails exactly as RefreshCheck, with nothing saved; otherwise issues new tokens for the owner and stores Rotate of the table |
| AuthService.AuthService.Logout | backend/src/main/java/com/safekab/market/service/AuthService.java:138-145 | a null or empty token is 400; an unknown token is 404; otherwise exactly that token is deleted |
| AuthContext.UserFromToken | frontend/src/context/AuthContext.tsx:63-64 | the user's id and roles are those decoded from the access token |
| AuthContext.StoredPair | frontend/src/context/AuthContext.tsx:60-67 | a stored session exists iff both keys hold non-empty values, and is exactly that pair |
| AuthContext.AuthProvider.constructor | frontend/src/context/AuthContext.tsx:39-42 | no user, no tokens, loading |
| AuthContext.AuthProvider.SetToken | frontend/src/context/AuthContext.tsx:44-46 | the ref then holds exactly the token given |
| AuthContext.AuthProvider.SetUser | frontend/src/context/AuthContext.tsx:39 | sets the user state |
| AuthContext.AuthProvider.SetTokenData | frontend/src/context/AuthContext.tsx:40 | sets the token state |
| AuthContext.AuthProvider.GetIsAdmin | frontend/src/context/AuthContext.tsx:51-54 | admin iff a user is signed in and "ADMIN" is among its roles |
| AuthContext.AuthProvider.InitAuth | frontend/src/context/AuthContext.tsx:56-75 | loading ends; a stored pair hydrates user, state and ref from storage, and the three then agree with storage; without one the state is unchanged |
| Api.ApiUrl | frontend/src/hooks/useApi.tsx:83-89 | the configured base URL when set and non-empty, else "http://localhost:8080/api" |
| Api.MergeHeaders | frontend/src/services/api.ts:268-275 | the caller's headers win, and Content-Type defaults to application/json |
| Api.WithBearer | frontend/src/services/api.ts:352-361 | adds exactly "Authorization: Bearer " + access token |
| Api.ErrorOf | frontend/src/services/api.ts:303-308 | the error keeps the response status, takes the body's message or "unexpected error", and its validation errors or [] |
| Api.Decide | frontend/src/services/api.ts:276-316 | network failure is the 500 "An unexpected error occurred"; 204 is no body; other 2xx return the body; a 401 on a first attempt of a non-refresh endpoint with tokens goes to refresh; any other failure keeps its status |
| Api.OneShot | frontend/src/services/api.ts:276-316 | a request without retry succeeds iff the response is 2xx, with its body (none for 204) |
| Api.ToApiError | frontend/src/services/api.ts:311-316 | an ApiError passes through; anything else becomes the 500 unexpected error |
| Api.SettlesAsOneShot | frontend/src/services/api.ts:283-288 | a retried request or a refresh-endpoint request never refreshes, and settles as a single fetch |
| Api.RefreshOnlyAfterUnauthorized | frontend/src/services/api.ts:283-288 | refresh is attempted only after a 401, on a first attempt, with tokens present |
| Api.FailureKeepsStatus | frontend/src/services/api.ts:303-316 | a failed request reports the server's status, or 500 without a response |
| Client.TokensOf | frontend/src/hooks/useApi.tsx:17-30 | the stored pair is the response's access and refresh tokens |
| Client.ApiService.constructor | frontend/src/services/api.ts:232-240 | keeps the base URL, the auth provider and the browser; no refresh in flight |
| Client.ApiService.Enter | frontend/src/services/api.ts:245-249 | an empty slot starts a new refresh and holds it; a held slot is joined without a new call |
| Client.ApiService.RefreshTokens | frontend/src/services/api.ts:245-256 | any number of concurrent callers all await the same refresh; with a refresh token held, the first request it puts on the wire is the one POST of that token to /auth/refresh, and a successful refresh sends exactly that one request (none without tokens), however many callers joined; the slot is released afterwards; a successful refresh leaves the auth ref at its result; a failed one signs out and clears exactly the two token keys |
| Client.ApiService.Request | frontend/src/services/api.ts:262-317 | the first fetch goes to base URL + endpoint with merged headers; the outcome follows Decide; a refresh failure is rethrown; with no tokens after refresh the original error is thrown; otherwise the request is retried once with the new bearer token, so a refreshed request sends exactly three requests: the first attempt, the refresh and one retry |
| Client.ApiService.RefreshAndRetry | frontend/src/services/api.ts:289-302 | the refresh-and-retry branch: refresh errors rethrown, no tokens gives the first response's error, else one retry whose outcome is the result; after a successful refresh with tokens exactly two requests go out, the refresh and the retry |
| Client.ApiService.Login | frontend/src/services/api.ts:319-324 | one POST of the credentials to /auth/login; success is that response's body |
| Client.ApiService.Register | frontend/src/services/api.ts:326-331 | one POST to /auth/register; success is that response's body |
| Client.ApiService.RefreshToken | frontend/src/services/api.ts:333-338 | exactly one POST of the refresh token to /auth/refresh, settled as a single fetch, changing nothing else |
| Client.ApiService.Logout | frontend/src/services/api.ts:340-349 | without a refresh token nothing is sent; otherwise one POST of it to /auth/logout |
| Client.ApiService.AuthorizedRequest | frontend/src/services/api.ts:352-361 | without tokens fails with 401 "No tokens" and sends nothing; otherwise a request carrying the bearer header |
| Client.UseApi.constructor | frontend/src/hooks/useApi.tsx:83-89 | builds the service with ApiUrl(env), wired to this hook |
| Client.UseApi.AuthHelper | frontend/src/hooks/useApi.tsx:17-30 | stores the response's tokens in ref, state and storage and sets the user decoded from the access token |
| Client.UseApi.Login | frontend/src/hooks/useApi.tsx:32-35 | one POST to /auth/login; success stores that response's tokens |
| Client.UseApi.Register | frontend/src/hooks/useApi.tsx:37-40 | one POST to /auth/register; success stores that response's tokens |
| Client.UseApi.Adopt | frontend/src/hooks/useApi.tsx:17-40 | a successful body is adopted as the session; a failure leaves the session and storage unchanged |
| Client.UseApi.Refresh | frontend/src/hooks/useApi.tsx:42-70 | no tokens yields null without a request; success adopts and returns the new pair; a 404 while the access token is still live keeps the current pair; any other failure asks for sign-out and is rethrown |
| Client.UseApi.Logout | frontend/src/hooks/useApi.tsx:72-81 | the backend logout is sent only with a refresh token; afterwards user, state and ref are cleared and exactly the two token keys are removed |
| CartPage.SelectedLines | frontend/src/pages/CartPage.tsx:52-54 | a line is selected iff it is in the cart and its id is selected (order and multiplicity by SelectedLinesAppend) |
| CartPage.SelectedLinesAppend | frontend/src/pages/CartPage.tsx:52-54 | the filter works line by line: two parts of a cart select their lines in cart order, each as often as it occurs |
| CartPage.SelectedSingleLine | frontend/src/pages/CartPage.tsx:52-54 | one line is kept iff its id is selected |
| CartPage.SumGross | frontend/src/pages/CartPage.tsx:40-44 | the reduce over the lines' gross prices (non-negative by SumGrossIsNonNegative) |
| CartPage.SumQuantity | frontend/src/pages/CartPage.tsx:56-58 | the reduce over the lines' quantities |
| CartPage.NothingSelected | frontend/src/pages/CartPage.tsx:52-54 | an empty selection selects nothing |
| CartPage.CartIds | frontend/src/pages/CartPage.tsx:70-77 | exactly the ids of the cart's lines |
| CartPage.AllSelected | frontend/src/pages/CartPage.tsx:52-54 | when every line's id is selected the selection is the whole cart, in order |
| CartPage.LineIsNonNegative | frontend/src/models/CartItem.tsx:15-20 | a line of non-negative data costs at least 0 |
| CartPage.SumGrossIsNonNegative | frontend/src/pages/CartPage.tsx:40-44 | the subtotal of non-negative lines is non-negative |
| CartPage.ClampQuantity | frontend/src/pages/CartPage.tsx:266-272 | NaN or a value below 1 becomes 1 (unless a negative stock caps it); a value above a truthy (non-zero) stock becomes the stock; a value in range is kept; a stock of 0 caps nothing |
| CartPage.ZeroStockDoesNotClamp | frontend/src/pages/CartPage.tsx:266-272 | a stock of 0 is treated as unlimited, so any quantity ≥ 1 is accepted |
| CartPage.DecrementDisabled | frontend/src/pages/CartPage.tsx:253 | the − button is disabled at quantity 1 or below |
| CartPage.IncrementDisabled | frontend/src/pages/CartPage.tsx:278-282 | the + button is disabled once a known stock is reached |
| CartPage.StepButtonsStayInStock | frontend/src/pages/CartPage.tsx:253-282 | the − and + buttons, when enabled, keep the quantity within 1..stock |
| CartPage.CartPage.constructor | frontend/src/pages/CartPage.tsx:40-58 | starts with the given cart and shipping cost and nothing selected |
| CartPage.CartPage.GetSelectedItems | frontend/src/pages/CartPage.tsx:52-54 | the page's selected lines are SelectedLines of its cart and selection |
| CartPage.CartPage.CalculateSubtotal | frontend/src/pages/CartPage.tsx:40-44 | the gross sum of the selected lines, 0 when nothing is selected |
| CartPage.CartPage.CalculateTotal | frontend/src/pages/CartPage.tsx:46-50 | subtotal plus shipping when any id is selected, else 0 |
| CartPage.CartPage.GetSelectedItemCount | frontend/src/pages/CartPage.tsx:56-58 | the number of units selected, 0 when nothing is |
| CartPage.CartPage.HandleSelectItem | frontend/src/pages/CartPage.tsx:60-68 | toggles exactly the one id |
| CartPage.CartPage.HandleSelectAll | frontend/src/pages/CartPage.tsx:70-77 | selects exactly the cart's ids, or clears the selection |
| CartPage.CartPage.HandleCheckout | frontend/src/pages/CartPage.tsx:89-97 | nothing selected shows "Please select items to checkout"; otherwise checks out exactly the selected lines |
| CartPage.SelectAllCoversCart | frontend/src/pages/CartPage.tsx:40-77 | after select-all the subtotal and count cover the whole cart |
| CartPage.StaleSelectionStillAddsShipping | frontend/src/pages/CartPage.tsx:46-50 | a selection of ids no longer in the cart costs the shipping alone, since the total tests the id set, not the selected lines |
| OrderCard.GetNextStatus | frontend/src/components/admin/OrderCard.tsx:87-100 | no next step iff delivered or returned; otherwise the next status is one rank higher and never "returned" |
| OrderCard.DeliveredInThreeSteps | frontend/src/components/admin/OrderCard.tsx:87-100 | from "not shipped", three advances reach "delivered" and a fourth is impossible |
| OrderCard.AdvanceRaisesRank | frontend/src/components/admin/OrderCard.tsx:87-100 | n advances raise the rank by exactly n |
| OrderCard.ShowAdvance | frontend/src/components/admin/OrderCard.tsx:202-204 | the advance button is shown for paid orders neither delivered nor returned |
| OrderCard.ShowMarkReturned | frontend/src/components/admin/OrderCard.tsx:234-235 | "Mark Returned" is shown unless the order is not shipped or already returned |
| OrderCard.ActionsDisabled | frontend/src/components/admin/OrderCard.tsx:212 | the buttons are disabled while this order's own update is in flight |
| OrderCard.AdvanceClick | frontend/src/components/admin/OrderCard.tsx:202-210 | the advance button updates this order to its next status, and is always available when shown |
| OrderCard.AdvanceIsAlwaysAStep | frontend/src/components/admin/OrderCard.tsx:202-210 | a shown advance button always moves exactly one step |
| OrderCard.MarkReturnedClick | frontend/src/components/admin/OrderCard.tsx:234-240 | "Mark Returned" updates this order to "returned" |
| OrderCard.MarkReturnedExactlyAfterShipping | frontend/src/components/admin/OrderCard.tsx:234-240 | "Mark Returned" is shown iff the order is shipped, in transit or delivered |
| OrdersTab.PreviousPage | frontend/src/components/admin/OrdersTab.tsx:89-90 | one page back, never below 0 |
| OrdersTab.NextPage | frontend/src/components/admin/OrdersTab.tsx:102-108 | one page forward, never past the last page |
| OrdersTab.ShowPagination | frontend/src/components/admin/OrdersTab.tsx:68-85 | the controls render only when not loading, with a non-empty page, and more than one page |
| OrdersTab.PreviousDisabled | frontend/src/components/admin/OrdersTab.tsx:89 | Previous is disabled on the first page or while loading |
| OrdersTab.NextDisabled | frontend/src/components/admin/OrdersTab.tsx:102-105 | Next is disabled on the last page or while loading |
| OrdersTab.EnabledMovesStayInRange | frontend/src/components/admin/OrdersTab.tsx:85-108 | an enabled button moves by exactly one page and stays within the pages |
| OrdersTab.PreviousThenNext | frontend/src/components/admin/OrdersTab.tsx:89-108 | back then forward returns to the same page |
| OrdersTab.LoadingDisablesBoth | frontend/src/components/admin/OrdersTab.tsx:89-105 | while loading both buttons are disabled |
| OrdersTab.VisibleButtonsFollowPage | frontend/src/components/admin/OrdersTab.tsx:68-105 | once the controls are shown, loading is false, so each button is disabled exactly by the page position |
| Browser.Browser.SetItem | frontend/src/hooks/useApi.tsx:27-28 | localStorage.setItem: the key then maps to the value, nothing else changes |
| Browser.Browser.RemoveItem | frontend/src/hooks/useApi.tsx:72-81 | localStorage.removeItem: just that key is removed |
| Browser.Browser.Fetch | frontend/src/services/api.ts:276 | fetch yields the next scripted response and logs the request and the response |

## Left out

- I/O. The network, `localStorage` and the clock are `Browser`, with a scripted sequence of responses. JSON parsing is a `Body` value. A 2xx response without a JSON body becomes the client's TypeError, which the request reports as the 500 unexpected error.
- Concurrency. React re-renders and promise interleavings are executed one after another. The single-flight refresh is modelled for any number of joining callers, but as one sequence. The logout that `useApi.refresh` starts without awaiting runs right after the refresh slot is released and before the error reaches the caller. The order of requests on the wire is the same as in the source.
- Client.TokensOf: a 2xx login or refresh body without token fields stores "" in the model, where the browser stores the string "undefined".
- External libraries: jwt-decode, jjwt's parse and create, bcrypt's encode and matches, and the random UUID `jti` are parameters (the `jti` is a counter). Their internals are not modelled.
- Floating point and `Intl` currency formatting. Prices are integers in minor units, and the storefront's floor of a real sum is proved equal to an integer formula. `hooks/useVat.tsx` is not part of this model.
- Java long/Integer overflow. Integers are unbounded. ParseLong does range-check the long values it reads.
- Unicode. `equalsIgnoreCase`, `trim` and `Long.valueOf` are modelled for ASCII only.
- KeptOrigins: its own contract only bounds the result and says every kept origin is trimmed and non-empty; that the kept origins are the pieces' trimmed texts in order is stated by KeptOriginsAppend and KeptOriginsSingle, because the quantified form in the function's own contract is too costly for the solver.
- SecurityConfig.Split keeps trailing empty pieces where Java's `String.split` drops them. Empty pieces are filtered out after trimming, so the origins list comes out the same.
- CartPage.ClampQuantity takes the already-parsed number. `parseInt`'s leniency on strings such as "3abc" is not modelled.
- Validation. Request validation (zod on the frontend, bean validation on the backend) is not modelled. Neither are the NullPointerExceptions the backend would throw when unboxing null DTO fields.
- JwtToken: a null expiration claim, and a roles claim that is not a list, are not modelled. Roles come from the user's role set, and their order is fixed in the model, where the HashSet's order is not.
- Repositories. The `@OrderBy(displayOrder)` on reads is not modelled. The plain reads `getAllProducts`, `getProductById`, `findById`, `findByIdWithoutVerification` and `save` are not modelled either. Token strings are assumed distinct, which is what the random `jti` ensures.
- Order.orderProducts is a HashSet in the source and a sequence here. The OrderProduct back-link is not modelled: OrderProduct.java is not part of this model.
- The Spring SecurityFilterChain route rules, and the GlobalExceptionHandler's mapping of exceptions to responses beyond 500 for non-API exceptions.
- TokenFilter.TokenAuthenticationFilter.DoFilterInternal: the rest of the filter chain is taken not to throw. In the source the chain call for an authenticated request (TokenAuthenticationFilter.java:57) sits inside the try, so an exception further down the chain would also be answered with 401.
- Client.ApiService.AuthorizedRequest stands for the token-guarded wrappers (`getUserDetails`, `newProduct`, `getCart`, `updateOrderStatus`, …). They all share its shape and differ only in endpoint, verb and body. The public `getProducts`, `getProduct` and `getConfig` are plain requests. CartContext and the rest of the UI rendering are not modelled.
- Client.ApiService.RefreshTokens requires an empty slot on entry. In the sequential model the slot is held only while a refresh request is in flight. The callers that join it are counted by the `callers` parameter.
