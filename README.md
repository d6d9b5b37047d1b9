# Clothing store backend: carts, products, reviews and request middleware

This project models the core of an Express/Mongoose clothing-store backend and proves
properties of that model. The backend keeps one shopping cart per user and a catalog of
products with per-size stock. It accepts product reviews, lists and searches products page
by page, and puts validators and security middleware in front of the routes.

Modules, one per file:

- `Wrappers` (`wrappers.dfy`): the `Option` and `Result` types used for missing fields and failures.
- `Lists` (`lists.dfy`): the JavaScript array operations the code relies on. These are
  `findIndex`/`find`, `reduce` with `+`, and `filter`.
- `Text` (`text.dfy`): the string operations. These are JavaScript's `\s` class and `trim()`,
  ASCII `toLowerCase()`, truthiness of an optional string, and digit values.
- `Products` (`products.dfy`): the product document as a class. It has the schema bounds,
  the pre-save `totalStock` fold, and the methods `isInStock`, `getFinalPrice` and
  `updateStock`. Money is in integer cents.
- `Carts` (`cart.dfy`): line items, the cart schema bounds, and the pre-save totals.
  It also holds the in-memory cart document (a class) and the cart collection.
  - The collection stores one `CartRecord` value per user.
  - Each request loads a fresh document, changes `items` in place, and calls `save()`.
  - A failed schema validation leaves the stored cart untouched.
- `CartController` (`cart_controller.dfy`): the five cart endpoints as methods.
  - Each method is proved against a function on values (`AddOutcome` etc.).
  - That function gives the error the handler answers, or the items it saves.
  - Lemmas state merging, stock, totals, consistency and no-op behaviour.
- `Reviews` (`reviews.dfy`): `addProductReview`. It enforces one review per user, pushes the
  review, recomputes count and average, and saves.
- `ProductQueries` (`product_queries.dfy`): the query arithmetic of `getProducts` and `searchProducts`.
  - `parseInt(...) || default` for page and limit, the skip, and `Math.ceil(total / limit)`.
  - The sort selection and the filter objects.
- `Validation` (`validation.dfy`): the express-validator chains and `handleValidationErrors`.
  - A chain is data: a field, whether it is optional, and steps (`trim` or a check with its message).
  - One interpreter runs each chain the way the library does.
  - Lemmas state what each validator array accepts, as both directions of an if-and-only-if.
- `Security` (`security.dfy`): the security middleware and the server's middleware order.
  - `sanitizeInput` is a method with loops over the keys of the request's `body` and `query` maps.
  - Also the CORS origin decision and `validateContentType`.

Parameters stand for what the model does not define:

- validator.js's `isEmail`, `isMobilePhone` and the number `isFloat` reads;
- JavaScript's `parseFloat`;
- `req.is`.

## Model

| member | source | states |
|---|---|---|
| Carts.Cart.PreSave | Backend/src/models/Cart.js:53-58 | `totalItems` and `totalPrice` become the sums over the items of the quantity and of price times quantity |
| Carts.CartStore.Save | Backend/src/models/Cart.js:9-33 | the save succeeds exactly when every line has quantity at least 1 and non-empty size and color; on success the user's stored cart is replaced by the items with recomputed totals, otherwise nothing changes |
| Carts.CartStore.FindOne | Backend/src/controllers/cartController.js:87 | a fresh document holding the user's stored cart, or null exactly when the user has none |
| Carts.PutKeepsConsistent | Backend/src/controllers/cartController.js:123 | saving a consistent cart for one user keeps every stored cart consistent, also after new ids were handed out |
| Carts.SetQuantityKeepsConsistent | Backend/src/controllers/cartController.js:111 | setting one line's quantity to at least 1 keeps the lines within the schema with unique merge keys and ids |
| Carts.PushKeepsConsistent | Backend/src/controllers/cartController.js:112-120 | pushing a valid line with a new merge key and the next fresh id keeps the cart consistent once that id is handed out |
| Carts.TotalItems | Backend/src/models/Cart.js:54 | the fold starts at 0, so no items give 0 and one line gives its quantity |
| Carts.TotalPrice | Backend/src/models/Cart.js:55 | the fold starts at 0, so no items give 0 and one line gives its price times its quantity |
| Carts.EmptyTotals | Backend/src/models/Cart.js:54-55 | a cart with no items is stored with both totals 0 |
| Carts.TotalsAppend | Backend/src/models/Cart.js:54-55 | pushing a line adds its quantity to `totalItems` and its price times quantity to `totalPrice` |
| Carts.TotalsSetQuantity | Backend/src/models/Cart.js:54-55 | setting one line's quantity moves `totalItems` by the difference and `totalPrice` by the price times that difference |
| Carts.TotalItemsAtLeastLineCount | Backend/src/models/Cart.js:15-20 | with every quantity at least 1, `totalItems` is at least the number of lines |
| Carts.TotalPriceNonNegative | Backend/src/models/Cart.js:29-32 | with non-negative prices, `totalPrice` is non-negative |
| CartController.GetCart | Backend/src/controllers/cartController.js:7-34 | answers the stored cart, or items [] with zero totals when the user has none; the totals are the folds over the items |
| CartController.AddOffer | Backend/src/controllers/cartController.js:41-84 | in this order: refuses a missing product id, size or color (400), a missing or inactive product (404), a size with no entry of that label (400 "Size not available"), a color with no entry equal up to case (400 "Color not available"), and a stock below the requested quantity, 1 by default (400 "Insufficient stock"); when all of these pass the answer is a success carrying that size's stock, the catalog's color spelling and the final price |
| CartController.CheckAdd | Backend/src/controllers/cartController.js:41-84 | the handler's early checks, step by step, give exactly `AddOffer`'s answer |
| CartController.AddOutcome | Backend/src/controllers/cartController.js:39-123 | a request the early validations refuse gets exactly their error; a saved result passed them and meets the line schema |
| CartController.AddToCart | Backend/src/controllers/cartController.js:39-138 | the reply and the new collection are those of `AddOutcome` on the stored items; the store stays consistent |
| CartController.AddToStoredCart | Backend/src/controllers/cartController.js:86-123 | find or create the cart, merge into the line with the same product, size and color up to case, or push a new line, then save; the result matches `AddLine` and the store stays consistent |
| CartController.MergeOrPush | Backend/src/controllers/cartController.js:93-121 | refuses with "Insufficient stock for requested quantity" exactly when `AddLine` does, leaving the items alone; otherwise the items are those `AddLine` saves, and a fresh id is used only when a line is pushed |
| CartController.AddLine | Backend/src/controllers/cartController.js:93-123 | a saved result always satisfies the line schema |
| CartController.AddKeepsConsistent | Backend/src/controllers/cartController.js:93-123 | a successful add keeps every line within the schema, merge keys and ids unique, and uses only the new id |
| CartController.AddTotals | Backend/src/controllers/cartController.js:99-123 | a successful add raises `totalItems` by the requested quantity and `totalPrice` by that quantity times the line's unit price |
| CartController.MergedLineTotals | Backend/src/controllers/cartController.js:99-111 | raising the first line with a key by q keeps it the first line with that key, raises `totalItems` by q and `totalPrice` by q times its price |
| CartController.SetQuantityKeepsFirst | Backend/src/controllers/cartController.js:93-111 | changing a line's quantity leaves it the first line with its merge key |
| CartController.AppendedLineTotals | Backend/src/controllers/cartController.js:112-120 | a pushed line with a new key is the first line with that key and adds its quantity and line total to the totals |
| CartController.AddMergesExistingLine | Backend/src/controllers/cartController.js:93-111 | with an existing line of the same key, only that line's quantity rises, by the requested amount |
| CartController.AddAppendsNewLine | Backend/src/controllers/cartController.js:113-120 | with no such line, one line is appended with the new id, the quantity, the size, the catalog's color spelling and the final price |
| CartController.AddWithinStock | Backend/src/controllers/cartController.js:79-109 | after a successful add, the created or merged line holds no more than the stock of its size |
| CartController.AddOverStockRefused | Backend/src/controllers/cartController.js:79-84 | asking for more than the size's stock is refused with "Insufficient stock" whatever the cart holds |
| CartController.AddTwiceMerges | Backend/src/controllers/cartController.js:93-120 | two adds of the same product, size and color leave one line whose quantity is their sum |
| CartController.UpdateOutcome | Backend/src/controllers/cartController.js:145-182 | a successful update had an item id, a quantity of at least 1 and a stored cart, and keeps the number of lines and the schema |
| CartController.UpdateCartItem | Backend/src/controllers/cartController.js:143-197 | the reply and the new collection are those of `UpdateOutcome`; no id is handed out; the store stays consistent |
| CartController.UpdateKeepsConsistent | Backend/src/controllers/cartController.js:181 | changing one quantity to at least 1 keeps the cart consistent |
| CartController.UpdateSetsOneQuantity | Backend/src/controllers/cartController.js:162-182 | a successful update sets the quantity of the one line with that id, leaves every other line alone, and moves the totals by the difference |
| CartController.UpdateWithinStock | Backend/src/controllers/cartController.js:171-179 | a successful update never sets a quantity above the stock of the line's size |
| CartController.UpdateRefusals | Backend/src/controllers/cartController.js:147-182 | a missing id or a quantity below 1 gives 400 "Item ID and valid quantity are required"; a missing cart gives 404 "Cart not found"; a missing item gives 404 "Item not found in cart"; a deleted product or size gives 500; a stock below the quantity gives 400 "Insufficient stock"; otherwise exactly that line's quantity is set and saved |
| CartController.RemoveOutcome | Backend/src/controllers/cartController.js:206-214 | "Cart not found" exactly when the user has no cart; otherwise the kept lines are no more than before and none has the removed id |
| CartController.RemoveFromCart | Backend/src/controllers/cartController.js:202-230 | the reply and the new collection are those of `RemoveOutcome`; the store stays consistent |
| CartController.RemoveKeepsConsistent | Backend/src/controllers/cartController.js:214 | filtering out an id keeps the cart consistent |
| CartController.RemoveAbsentIsNoOp | Backend/src/controllers/cartController.js:214 | removing an id the cart does not hold saves the cart unchanged |
| CartController.RemoveDropsOneLine | Backend/src/controllers/cartController.js:214 | removing a held id drops exactly that line, keeps the others in order, and lowers the totals by its quantity and line total |
| CartController.RemoveAndUpdateOnMissingId | Backend/src/controllers/cartController.js:162-168 | for an id the cart does not hold, remove succeeds as a no-op while update answers 404 |
| CartController.ClearOutcome | Backend/src/controllers/cartController.js:237-245 | an existing cart is saved with no items; otherwise "Cart not found" |
| CartController.ClearCart | Backend/src/controllers/cartController.js:235-260 | the reply and the new collection are those of `ClearOutcome` |
| CartController.ClearGivesEmptyCart | Backend/src/controllers/cartController.js:245-246 | clearing stores and answers items [] with zero totals |
| Products.Product.Save | Backend/src/models/products.js:184-188 | the save succeeds exactly when the document meets the schema bounds; only then is `totalStock` recomputed as the sum of the per-size stock |
| Products.Product.PreSave | Backend/src/models/products.js:184-188 | `totalStock` becomes the sum of the per-size stock |
| Products.Product.IsInStock | Backend/src/models/products.js:191-197 | with a size: true exactly when the first entry with that label has stock left, false when there is none; without one: `totalStock > 0` |
| Products.Product.GetFinalPrice | Backend/src/models/products.js:200-202 | the discount price when it is set, non-zero and below the price, else the price; never above the price |
| Products.Product.UpdateStock | Backend/src/models/products.js:205-211 | the first entry with that label gets `max(0, stock + quantity)`, then `totalStock` is recomputed; an unknown size changes nothing; the schema bounds are kept |
| Products.StockAdjusted | Backend/src/models/products.js:205-208 | the size list keeps its length and every entry its label |
| Products.StockAdjustedKeepsBounds | Backend/src/models/products.js:205-211 | `updateStock` keeps every label known and every stock non-negative, so the total stays non-negative |
| Products.StockAdjustedTouchesFirstMatch | Backend/src/models/products.js:206-208 | only the first entry with the given label changes; an unknown label changes nothing |
| Products.StockAdjustedTotal | Backend/src/models/products.js:208-209 | the new total is the old total with the adjusted entry's stock replaced |
| Products.TotalStockNonNegative | Backend/src/models/products.js:185 | with non-negative per-size stock, the pre-save total is non-negative |
| Products.InStockAtSizeImpliesInStock | Backend/src/models/products.js:191-197 | in stock at some size implies in stock overall, when `totalStock` is the pre-save fold |
| Products.FinalPriceWithinBounds | Backend/src/models/products.js:200-202 | with the schema bounds, the final price lies between 0 and the list price |
| Reviews.AddProductReview | Backend/src/controllers/productController.js:271-320 | unknown product: 404; a second review by the same user: 400 with the product unchanged; otherwise the review is pushed with its comment trimmed and count and average are recomputed; a failed save answers 500 and leaves the product unchanged; a product meeting the schema, a rating from 1 to 5 and no earlier review by the user always give 201 |
| Reviews.PushReview | Backend/src/controllers/productController.js:301-307 | a successful save appends the review, sets count and average to the summary of all reviews, recomputes `totalStock` and keeps the schema; a failed save leaves the product unchanged; a product meeting the schema and a rating from 1 to 5 always save |
| Reviews.ReviewOutcome | Backend/src/controllers/productController.js:284-301 | refused with "Product already reviewed" exactly when the user has a review; otherwise the new review is appended with its comment trimmed |
| Reviews.Summary | Backend/src/controllers/productController.js:304-305 | the count is the number of reviews and the average times the count is the sum of the ratings |
| Reviews.ReviewRatingsStayInRange | Backend/src/models/products.js:121-145 | pushing a rating from 1 to 5 keeps every rating and the recomputed average within the schema's bounds |
| Reviews.Mean | Backend/src/controllers/productController.js:305 | the average times the number of reviews is the sum of the ratings |
| Reviews.AverageWithinRatings | Backend/src/controllers/productController.js:305 | with every rating from 1 to 5, the average is from 1 to 5 |
| Reviews.ReviewKeepsOnePerUser | Backend/src/controllers/productController.js:284-301 | an accepted review keeps at most one review per user |
| Reviews.SecondReviewRefused | Backend/src/controllers/productController.js:284-293 | a second review by the same user is always refused |
| Reviews.SummaryAfterPush | Backend/src/controllers/productController.js:301-305 | after a push, the count is one more and the average is the old total plus the new rating over the new count |
| ProductQueries.ParseInt | Backend/src/controllers/productController.js:8-9 | `parseInt` of a blank string is NaN, and leading whitespace is skipped |
| ProductQueries.UnsignedPrefix | Backend/src/controllers/productController.js:8-9 | a number is read exactly when the string starts with a decimal digit and, after a `0x` or `0X` prefix, with a hexadecimal one |
| ProductQueries.IntOr | Backend/src/controllers/productController.js:8-9 | `parseInt(v) \|\| fallback` is the parsed value when it is a non-zero number, and the fallback when the parameter is missing, NaN or 0; never 0 with a non-zero fallback |
| ProductQueries.WindowOf | Backend/src/controllers/productController.js:8-10 | page and limit are never 0, and skip is `(page - 1) * limit` |
| ProductQueries.ParseIntReadsDecimal | Backend/src/controllers/productController.js:8-9 | `parseInt` reads the decimal numeral of n followed by a non-digit as n |
| ProductQueries.ParseIntReadsNegative | Backend/src/controllers/productController.js:8-9 | with a minus sign in front, `parseInt` reads the same numeral as -n |
| ProductQueries.ParseIntNoDigits | Backend/src/controllers/productController.js:8-9 | a string without a leading digit, sign or space is NaN |
| ProductQueries.UnsignedPrefixReadsDecimal | Backend/src/controllers/productController.js:8-9 | the unsigned part of `parseInt` reads a decimal numeral as its value |
| ProductQueries.WindowDefaults | Backend/src/controllers/productController.js:8-10 | any page and limit that are missing, read as 0 or read as NaN give page 1, limit 12, skip 0 |
| ProductQueries.WindowKeepsGiven | Backend/src/controllers/productController.js:8-10 | a page and a limit read as non-zero numbers are used as read, with skip `(page - 1) * limit` |
| ProductQueries.ParseIntFallbackExamples | Backend/src/controllers/productController.js:8-9 | `"0"` reads as 0, and `"abc"` and `""` read as NaN |
| ProductQueries.Pages | Backend/src/controllers/productController.js:91 | no documents give 0 pages, and any document with a positive limit gives at least 1 |
| ProductQueries.PagesCoverTotal | Backend/src/controllers/productController.js:91 | with a positive limit, `pages` pages cover every document and the last page is non-empty; `pages` is 0 exactly when there are no documents |
| ProductQueries.PagesIsCeilingDivision | Backend/src/controllers/productController.js:91 | with a positive limit, `Math.ceil(total / limit)` is the integer ceiling division |
| ProductQueries.SkipWithinTotal | Backend/src/controllers/productController.js:10 | a page from 1 to `pages` skips fewer documents than there are |
| ProductQueries.ListingSort | Backend/src/controllers/productController.js:52-74 | the direction is 1 or -1, ascending exactly for `price_asc` and `name_asc`; the field is the price exactly for `price_asc`/`price_desc`, the name exactly for `name_asc`/`name_desc`, the rating average exactly for `rating`, and the creation date for every other value |
| ProductQueries.ListingSortDefaults | Backend/src/controllers/productController.js:52-74 | `price_asc` is price ascending, `price_desc` price descending, `name_asc` name ascending, `name_desc` name descending, `rating` rating average descending; `newest`, a missing and any unrecognised `sort` give newest first |
| ProductQueries.IfTruthy | Backend/src/controllers/productController.js:16-23 | a filter field is set exactly when the parameter is truthy, and to that parameter |
| ProductQueries.PriceCondition | Backend/src/controllers/productController.js:31-39 | a price condition exists exactly when a bound is given; `$gte`/`$lte` are present exactly for the given bounds and hold `parseFloat` of them |
| ProductQueries.ListingFilter | Backend/src/controllers/productController.js:13-49 | the listing filter: active only, no text search, the truthy category, gender, brand, size and color, and the price condition |
| ProductQueries.SearchFilter | Backend/src/controllers/productController.js:136-155 | the search filter: active only, text search on a truthy query, category, gender and price; never brand, size or color |
| Validation.RunSteps | Backend/src/middleware/validationMiddleware.js:18-23 | a chain reports at most one error per step, all for its own field |
| Validation.RunChain | Backend/src/middleware/validationMiddleware.js:36-39 | an optional chain on an absent field reports nothing |
| Validation.HandleValidationErrors | Backend/src/middleware/validationMiddleware.js:4-14 | passes on exactly when there is no error; otherwise answers 400 listing every error |
| Validation.UsernameAccepted | Backend/src/middleware/validationMiddleware.js:18-23 | a username passes exactly when its trimmed form has 2 to 50 characters, each a letter, digit, `_` or `-` |
| Validation.UsernameTrimInvariant | Backend/src/middleware/validationMiddleware.js:18-23 | acceptance depends only on the trimmed username, and an accepted one contains no whitespace |
| Validation.PasswordAccepted | Backend/src/middleware/validationMiddleware.js:30-34 | a password passes exactly when it has at least 6 characters and a lower-case letter, an upper-case letter and a digit before its first line break |
| Validation.PasswordSingleLine | Backend/src/middleware/validationMiddleware.js:33 | for a password without line breaks, the three kinds of character may occur anywhere |
| Validation.PasswordLookaheadsStopAtLineBreak | Backend/src/middleware/validationMiddleware.js:33 | for a password made of a first line, a line terminator and the rest, the lookaheads scan exactly the first line, and the password passes if and only if it has six characters and that first line holds a lower-case letter, an upper-case letter and a digit |
| Validation.RegistrationAccepted | Backend/src/middleware/validationMiddleware.js:17-48 | registration passes exactly when username and password pass, the email is valid, and a given phone or address (at most 200 characters trimmed) is valid |
| Validation.LoginAccepted | Backend/src/middleware/validationMiddleware.js:51-62 | login passes exactly when the email is valid and a non-empty password is given |
| Validation.ProfileAccepted | Backend/src/middleware/validationMiddleware.js:65-92 | profile update passes exactly when each given field meets its registration rule; absent fields are not checked |
| Validation.ProfileUsernameSameRules | Backend/src/middleware/validationMiddleware.js:66-72 | a username given on profile update gets exactly the errors registration reports for it; an absent one gets none |
| Validation.ErrorsForChain | Backend/src/middleware/validationMiddleware.js:4-14 | with distinct fields, the errors listed for a field are exactly those of its own chain |
| Validation.PasswordChangeAccepted | Backend/src/middleware/validationMiddleware.js:95-107 | a password change passes exactly when a current password is given and the new one meets the password rule |
| Validation.ProductAccepted | Backend/src/middleware/validationMiddleware.js:110-149 | a product passes exactly when name, description, brand and SKU fit their trimmed length bounds, the price (and a given discount price) is a number of at least 0, and category and gender are values the product schema allows |
| Validation.ReviewAccepted | Backend/src/middleware/validationMiddleware.js:152-164 | a review passes exactly when the rating is an integer from 1 to 5 and a given comment has at most 500 characters once trimmed |
| Validation.SearchAccepted | Backend/src/middleware/validationMiddleware.js:167-195 | the search chains pass exactly when the query (1 to 100 characters trimmed), category, gender and price bounds are each absent or valid |
| Validation.SearchGate | Backend/src/middleware/validationMiddleware.js:167-195 | the search validator applied to the query string passes exactly when the query parameters meet the search rules |
| Validation.SearchIgnoresQuery | Backend/src/router/productRoutes.js:22 | on a GET request, with its empty body, the search validator passes every query string; the query-string gate refuses a category outside the enumeration |
| Security.RemoveNul | Backend/src/middleware/securityMiddleware.js:59 | the result has no null byte, is no longer than the input, and equals an input that had none |
| Security.RemoveNulConcat | Backend/src/middleware/securityMiddleware.js:59 | null bytes are removed piece by piece, so the remaining characters keep their order |
| Security.SanitizeInput | Backend/src/middleware/securityMiddleware.js:55-71 | every body and query field is replaced by its sanitized value: strings lose their null bytes, other values and the set of keys are unchanged |
| Security.SanitizeBody | Backend/src/middleware/securityMiddleware.js:57-61 | the loop over the body's keys leaves every body field sanitized and the key set unchanged |
| Security.SanitizeQuery | Backend/src/middleware/securityMiddleware.js:64-68 | the loop over the query's keys leaves every query field sanitized and the key set unchanged |
| Security.SanitizedHasNoNul | Backend/src/middleware/securityMiddleware.js:57-68 | after sanitizing, no string field contains a null byte |
| Security.SanitizedKeepsOtherFields | Backend/src/middleware/securityMiddleware.js:58 | non-string fields and strings without null bytes are unchanged |
| Security.SanitizeIdempotent | Backend/src/middleware/securityMiddleware.js:55-71 | sanitizing twice is sanitizing once |
| Security.ParseJsonBody | Backend/src/server.js:33 | `express.json()` sets `req.body` to the parsed body |
| Security.MiddlewareAsWritten | Backend/src/server.js:30-33 | with the sanitizer before the JSON parser, the body reaches the routes exactly as parsed and only the query is sanitized |
| Security.Middleware | Backend/src/server.js:30-33 | with the parser first, the body reaches the routes sanitized, with no null byte in any string field |
| Security.NulSurvivesInBody | Backend/src/server.js:30-33 | the body field "ad\0min" keeps its null byte in the server's order and becomes "admin" in the other |
| Security.CorsOrigin | Backend/src/middleware/securityMiddleware.js:7-26 | allowed exactly when the origin is absent or empty, or is one of the five listed origins; otherwise "Not allowed by CORS" |
| Security.CorsRefusesByShape | Backend/src/middleware/securityMiddleware.js:11-21 | a non-empty origin whose length is not 21 or which does not start with a lower-case `h` is refused, since every listed origin has that shape |
| Security.CorsIsExact | Backend/src/middleware/securityMiddleware.js:11-21 | origins are compared exactly: `http://localhost:3000` is allowed, and the same origin with a trailing slash, an upper-case scheme or `https` is refused |
| Security.ValidateContentType | Backend/src/middleware/securityMiddleware.js:96-106 | refuses with 400 exactly the POST, PUT and PATCH requests that are neither JSON nor multipart |
| Security.ContentTypeGateScope | Backend/src/middleware/securityMiddleware.js:97 | other methods (GET, DELETE, ...) always pass, as does any JSON or multipart request |

## Left out

- Database access is reduced to maps: `findOne`, `findById` and `save` become map reads and
  writes. Left out are `populate`, the `updatedAt` and `createdAt` timestamps, ObjectId
  generation (a counter stands in for it) and concurrent requests.
- Malformed ObjectIds are not modelled. Casting such an id makes the database call throw,
  and the handlers answer 500.
- Product ids are taken in their canonical lower-case hexadecimal form, the form the
  frontend sends (Frontend/src/pages/ProductDetail.jsx:84). The model compares them as
  plain strings. `findById` also accepts an upper-case spelling, while the merge test
  compares `item.product.toString()`, which is lower case, with the id as sent. With an
  upper-case id, repeated adds push separate lines for one product, size and color. The
  unique-key invariant of `CartController.AddKeepsConsistent` and `CartController.AddTwiceMerges`
  then fails for such carts.
- Field types are simplified. The cart endpoints take `quantity` as an integer and prices are
  integer cents. The model does not cover non-numeric quantities with JavaScript's coercion,
  floating-point prices, or `null` fields.
- Strings are sequences of Unicode scalar values.
  - `toLowerCase()` folds only ASCII letters.
  - `isLength` counts code points. It does not subtract the variation selectors that some
    validator.js versions discount.
- ProductQueries.ParseInt: it reads exactly. JavaScript's rounding of numerals above 2^53
  is not modelled.
- The database queries are left out. These are `find`, `countDocuments`, `skip`, `limit`
  and `sort`, the regular-expression brand and color filters, and the `$text` search. The
  model builds the filter, sort and window objects those calls receive.
- ProductQueries.ListingFilter: it always builds a filter. `new RegExp(brand, 'i')` or
  `new RegExp(color, 'i')` throws on an invalid pattern, and the handler then answers 500.
  The model does not capture that refusal, because it does not define regular-expression
  syntax.
- `getProductById`, `createProduct`, `updateProduct` and `deleteProduct` are not part of this model.
- The product document omits fields nothing in the model reads. These are name,
  description, brand, SKU, images, tags and dimensions, and the review date.
- Query parameters that arrive as arrays are not modelled for the product queries.
  `Security.Value` does model them, and the sanitizer leaves them untouched.
- Validators see each body field as its string form, and a missing field as "". Left out
  are `normalizeEmail`'s rewriting of the email and the sanitized values written back into
  `req.body`. No chain runs another step after `normalizeEmail`.
- `isEmail`, `isMobilePhone`, the `isFloat` number grammar, `parseFloat` and `req.is` are
  parameters, not definitions.
- helmet, morgan, the rate limiter, the request id and response-time middleware, and the
  authentication middleware are left out. So is the CORS library's header handling; only
  the origin decision is modelled.
- Behaviour modelled as the code does it, where a reader might expect otherwise:
  - `updateCartItem` answers 400 for insufficient stock.
  - `updateCartItem` answers 500 when the line's product or size no longer exists, because
    the handler reads a property of `null`.
  - `addToCart` does not check the quantity. A quantity of 0, or a merge that would bring a
    line below 1, fails the schema on save and answers 500.
  - The password lookaheads `(?=.*X)` cannot pass a line break. The three kinds of character
    must therefore occur before the first line terminator, not anywhere (see
    `Validation.PasswordLookaheadsStopAtLineBreak`).

## Findings

| source | as written | input that shows it | evidently intended | confidence | as-written member | corrected member |
|---|---|---|---|---|---|---|
| Backend/src/server.js:30-33 | `sanitizeInput` is installed before `express.json()`, so its body loop runs while `req.body` is still undefined | a JSON body `{"username": "ad\u0000min"}` reaches the routes with its null byte | strip null bytes from the parsed body fields as well as from the query | high, not executed | Security.MiddlewareAsWritten | Security.Middleware |
| Backend/src/router/productRoutes.js:22 | `validateSearch` checks `body(...)` fields, but `GET /search` has no body and `searchProducts` reads `req.query` | `GET /api/products/search?category=bogus&minPrice=-5` passes validation | apply the search rules to the query string | high, not executed | Validation.SearchIgnoresQuery | Validation.SearchGate |
