# Mini marketplace: a Dafny model

This project models the core of a small two-sided marketplace. Sellers list
products with an image, and buyers browse and search them. The model covers
both halves of the system:

- **The Express backend.** This is the token gate (`authenticateToken`), the
  image upload filter, the CORS origin check and the last error handler. It
  also covers the account routes (signup, login, logout) and the product
  routes (list, get, create, update, delete).
- **The React client.** This is the API client with its stored access token,
  the login/signup form with its field rules, and the seller's dashboard with
  its ownership filter and product form. It also covers the buyer's search
  and the page shell that moves between views.

The database and identity provider are modelled as state. The `products` and
`users` tables are maps held by a `Store` or `AuthService` object. The
identity provider's credentials are a map keyed by the user ids it issues.
Where the source awaits a network call, the model takes what that call
produced as a parameter:

- `verify` stands for `auth.getUser`.
- `StorageOutcome` stands for the storage upload.
- `Fetched` stands for `fetch`.
- `CallOutcome`/`AuthOutcome`/`LoadOutcome` stand for the parent's API calls.

Each handler's contract then states the reply, and the new state, for every
way those calls can end.

Files:

| file | module | models |
|---|---|---|
| `text.dfy` | `Text` | `toLowerCase`, `includes`, `startsWith`, `trim`, `split(' ')` |
| `lists.dfy` | `Lists` | `Array.prototype.filter` and what it selects |
| `schema.dfy`, `listings.dfy`, `wrappers.dfy` | `Schema`, `Listings`, `Wrappers` | rows, client objects, `Option`/`Result` |
| `upload_middleware.dfy` | `UploadMiddleware` | `backend/middleware/upload.js` |
| `auth_middleware.dfy` | `AuthMiddleware` | `backend/middleware/auth.js` |
| `server.dfy` | `Server` | `backend/server.js` |
| `products.dfy` | `Products` | `backend/routes/products.js` |
| `protected_routes.dfy` | `ProtectedRoutes` | the gate → upload → handler chain of the three protected product routes |
| `auth_routes.dfy` | `AuthRoutes` | `backend/routes/auth.js` |
| `api_service.dfy` | `ApiService` | `mini-marketplace/src/services/api.js` |
| `auth_page.dfy` | `AuthPage` | `mini-marketplace/src/components/AuthPage.jsx` |
| `seller_dashboard.dfy` | `SellerDashboard` | `mini-marketplace/src/components/SellerDashboard.jsx` |
| `buyer_dashboard.dfy` | `BuyerDashboard` | `mini-marketplace/src/components/BuyerDashboard.jsx` |
| `app.dfy` | `App` | `mini-marketplace/src/App.jsx` |

Behaviours of the code that the model keeps as written. In several of these
the code differs from what one might expect from the system's own description:

- A file part that the upload filter refuses never reaches a product handler.
  Multer passes the filter's error (or `File too large`) to the server's
  error handler, which answers 500 with `Something went wrong!`, not 400.
- A failed `signOut` answers 400 with the provider's message.
- The update route's reply names the image `image`, not `imageUrl`, and
  carries no `sellerId`.
- The product routes ignore the `category` field that the seller's form sends.
- The create and update calls of the client always send
  `Authorization: Bearer <token>`. Without a stored token this is
  `Bearer null`, so the gate asks the identity provider about the token
  `null` and the request ends in 403, not in the 401 for a missing token
  (`ProtectedRoutes.NullTokenReachesProvider`).
- The gate takes the second space-separated field of the header and never
  checks the scheme word.
- The seller's dashboard accepts any MIME type starting with `image/`. The
  server separately demands an extension and a MIME type matching
  `jpeg|jpg|png|gif|webp`; that test is unanchored and case-sensitive on the
  MIME type.
- The buyer's search reads `name.toLowerCase()` with no null check. It also
  reads the description whenever the name does not match. So one product
  without a name makes the whole filter throw. The model returns `None` in
  that case.
- The shell's header search, by contrast, uses `?.` and skips missing fields.
- The ownership filter of the seller's dashboard compares the product's
  seller *name* with the session's email and name. So a product of another
  seller with the same display name counts as the seller's own
  (`SellerDashboard.SameNameCountsAsMine`).
- A login whose account has another role than the one chosen sets an error.
  By then the API client has already stored the new access token, and the
  shell does not clear it.
- The `users` table keeps e-mail addresses unique. A signup whose email already
  has a profile row fails at the insert, and the credential the provider just
  created is deleted again (when that delete succeeds).

Every `.dfy` file is verified together, for example with

    dafny verify --resource-limit 2000000 --verification-time-limit 0 --warn-contradictory-assumptions *.dfy

## Model

| member | source | states |
|---|---|---|
| Text.Split | backend/middleware/auth.js:6 | `split(' ')` yields at least one field and no field holds the separator |
| Text.Trim | mini-marketplace/src/components/AuthPage.jsx:23 | `trim()` is no longer than its input, starts and ends with a non-space when non-empty, and leaves text without spaces unchanged |
| Text.Lower | mini-marketplace/src/App.jsx:238-240 | `toLowerCase()` keeps the length and lower-cases each character in place |
| Text.StartsWith | mini-marketplace/src/components/SellerDashboard.jsx:40 | `startsWith(prefix)` implies the prefix fits and agrees character by character |
| Text.Contains | mini-marketplace/src/App.jsx:238-240 | `includes(sub)` implies the substring fits in the text |
| Text.ContainsIff | mini-marketplace/src/App.jsx:238-240 | `includes(sub)` holds iff `sub` occurs at some position of the text |
| Text.TrimLengthAtLeastTwo | mini-marketplace/src/components/AuthPage.jsx:23 | `trim().length >= 2` holds exactly when the text has two distinct non-whitespace positions |
| Text.TrimWindow | mini-marketplace/src/components/AuthPage.jsx:23 | the trimmed text is a window of the input with only whitespace outside it and none at either end |
| Text.JoinSplit | backend/middleware/auth.js:6 | `split(' ')` loses nothing: joining the pieces with the separator gives the input back |
| Text.SplitAfterFirst | backend/middleware/auth.js:6 | a word without the separator, the separator and a tail split into that word followed by the tail's pieces |
| Text.SplitNoSeparator | backend/middleware/auth.js:6 | a text without the separator is a single piece |
| Text.LowerIdempotent | mini-marketplace/src/App.jsx:238-240 | lower-casing twice is lower-casing once |
| Lists.FilterSelects | mini-marketplace/src/components/SellerDashboard.jsx:17-22 | `filter` returns the sub-list at exactly the positions the predicate keeps, in the original order |
| Lists.FilterKeepsAll | mini-marketplace/src/components/BuyerDashboard.jsx:9-12 | a predicate that keeps every element returns the list unchanged |
| Lists.FilterSameOn | mini-marketplace/src/App.jsx:237-241 | two predicates that agree on every element filter alike |
| UploadMiddleware.Extname | backend/middleware/upload.js:9 | the suffix of the last path component from its last `.`; empty exactly when that component has no `.`, when its last `.` is its first character, or when it is `..` |
| UploadMiddleware.Check | backend/middleware/upload.js:7-22 | accepted iff the filter passes and the part is at most 5 MiB; `TooLarge` iff the filter passes and it is over 5 MiB; `NotAnImage` iff the filter fails |
| UploadMiddleware.MatchesAllowedTypes | backend/middleware/upload.js:8-10 | `/jpeg\|jpg\|png\|gif\|webp/.test(s)` is unanchored: it holds when one of the five names occurs anywhere, so a matching text has at least three characters |
| UploadMiddleware.FileFilter | backend/middleware/upload.js:7-17 | a part passes only with a non-empty extension and a MIME type that both match the allow-list |
| UploadMiddleware.ExtnameLower | backend/middleware/upload.js:9 | taking the extension commutes with lower-casing |
| UploadMiddleware.FileFilterIgnoresNameCase | backend/middleware/upload.js:9 | the filter's verdict is the same for a file name and its lower-cased form |
| UploadMiddleware.ExtnameOfPlainName | backend/middleware/upload.js:9 | a plain stem plus `.ext` has the extension `.ext` |
| UploadMiddleware.NoExtensionRefused | backend/middleware/upload.js:9-15 | a name without an extension is refused whatever its MIME type |
| UploadMiddleware.LeadingDotIsNoExtension | backend/middleware/upload.js:9-15 | `photo` and `.png` have no extension and are refused as `image/png` |
| UploadMiddleware.NoDotRefused | backend/middleware/upload.js:9-15 | `photo` has no extension and is refused as `image/png` |
| UploadMiddleware.LeadingDotRefused | backend/middleware/upload.js:9-15 | `.png` has no extension and is refused as `image/png` |
| UploadMiddleware.MismatchRefused | backend/middleware/upload.js:9-15 | `<stem>.exe` is refused even when declared as an image type |
| UploadMiddleware.UnanchoredMatchAccepted | backend/middleware/upload.js:8-13 | `<stem>.JPGX` declared `image/jpeg` passes, since the test is unanchored and the extension lower-cased |
| UploadMiddleware.MimeTypeCaseSensitive | backend/middleware/upload.js:10-15 | the MIME type `IMAGE/PNG` is refused whatever the name |
| UploadMiddleware.SizeLimit | backend/middleware/upload.js:22 | a 6 MiB JPEG is `TooLarge`; exactly 5 MiB is accepted |
| AuthMiddleware.ExtractToken | backend/middleware/auth.js:5-6 | an extracted token is non-empty and holds no space |
| AuthMiddleware.ExtractedTokenShape | backend/middleware/auth.js:5-6 | a header yielding a token is a space-free first word, one space, the token, then nothing or a space and more |
| AuthMiddleware.AnySchemeWord | backend/middleware/auth.js:5-6 | any first word followed by one space and a non-empty space-free token yields that token |
| AuthMiddleware.DoubleSpaceNoToken | backend/middleware/auth.js:6-16 | two spaces after the first word yield no token |
| AuthMiddleware.NoSpaceNoToken | backend/middleware/auth.js:6-16 | a header without a space yields no token |
| AuthMiddleware.Gate | backend/middleware/auth.js:3-40 | no token → the 401 reply without asking the provider; passes iff the provider verifies the token, with the provider's user; the 403 reply iff the provider returns an error or no user; the 500 reply iff the call throws |
| AuthMiddleware.Exchange.AuthenticateToken | backend/middleware/auth.js:3-40 | sets `req.user` and calls `next` once exactly when the gate passes, otherwise sends the gate's reply; the provider is asked only about an extracted token |
| Server.CorsOrigin | backend/server.js:13-28 | an origin is allowed iff it is missing or empty, is listed exactly, or `NODE_ENV` is `development`; otherwise it is rejected with `Not allowed by CORS` |
| Server.NetlifyWithoutSlashRefused | backend/server.js:16-26 | outside development the deployed site without its trailing `/` is refused and the listed spelling allowed |
| Server.ProductionAllowList | backend/server.js:13-26 | outside development exactly the three listed origins are allowed |
| Server.HandleError | backend/server.js:49-56 | always 500, `success: false`, `Something went wrong!`; the error's message only in development |
| Server.UploadError | backend/middleware/upload.js:15-22 | the upload middleware passes an error on exactly for a refused part |
| Server.RefusedUploadIsServerError | backend/server.js:49-56 | a refused upload ends in the error handler with status 500 |
| Products.OrDefault | backend/routes/products.js:31-32 | `x \|\| fallback`: the value when truthy, else the fallback, which is never empty here |
| Products.SellerField | backend/routes/products.js:31-32 | the joined seller's name or phone when there is a seller row and the value is non-empty, else `Unknown` or `N/A`; never empty |
| Products.ViewOf | backend/routes/products.js:25-35 | a view carries the row's fields under their client names and the seller's name and phone with defaults |
| Products.UpdatedViewOf | backend/routes/products.js:258-267 | the update reply's view names the image `image` and has no seller id |
| Products.ImageAfter | backend/routes/products.js:216-235 | the image changes to the new public URL only when the file was stored |
| Products.NewRow | backend/routes/products.js:141-161 | the inserted row holds the three fields, `parseFloat(price)`, the caller as seller, the stored file's public URL when the upload was stored and no image otherwise |
| Products.Merge | backend/routes/products.js:237-245 | each truthy field replaces the stored value, every other field and the owner and timestamp are kept |
| Products.MergeIdempotent | backend/routes/products.js:237-245 | applying the same update twice equals applying it once |
| Products.MergeNothing | backend/routes/products.js:216-245 | an update without truthy fields and without a stored file leaves the row unchanged |
| Products.DistinctCount | backend/routes/products.js:17-35 | distinct views carry as many ids as there are views |
| Products.RowCount | backend/routes/products.js:17-35 | one view per row means as many views as rows |
| Products.InsertionPoint | backend/routes/products.js:20 | the newest-first position for a timestamp: every earlier view is at least as new, every later one older |
| Products.InsertByDate | backend/routes/products.js:20 | the new view is at its insertion point and the others keep their order around it |
| Products.InsertKeepsOrder | backend/routes/products.js:20 | inserting keeps the list newest first |
| Products.InsertIds | backend/routes/products.js:17-35 | inserting adds exactly the new view's id |
| Products.InsertMapped | backend/routes/products.js:25-35 | inserting a stored row's view keeps every view the mapping of its row |
| Products.InsertDistinct | backend/routes/products.js:17-35 | inserting a view with a new id keeps the ids distinct |
| Products.Store.constructor | backend/routes/products.js:1-6 | the router starts over an empty `products` table and the given `users` table, with ids handed out from 1 |
| Products.Store.List | backend/routes/products.js:9-48 | exactly one view per stored row, each the mapping of its row, as many as rows, newest first, each equal to what `GET /:id` answers |
| Products.Store.Get | backend/routes/products.js:51-95 | 404 `Product not found` iff no row has the id, otherwise 200 with that row's view |
| Products.Store.Create | backend/routes/products.js:98-187 | 400 on a missing field, 400 with the storage message on a failed upload, 500 when the caller has no profile row; otherwise exactly one new row under a fresh id owned by the caller, answered 201 with its view; no existing row changes |
| Products.Store.Update | backend/routes/products.js:190-281 | 404 for an unknown id, then 403 for another seller's row; otherwise only that row is merged; ids and owners never change and no other seller's row changes |
| Products.Store.Delete | backend/routes/products.js:284-328 | 404 for an unknown id, then 403 for another seller's row; otherwise exactly that row is removed and every other row kept |
| ProtectedRoutes.UploadOf | backend/routes/products.js:113-138 | the handler sees a storage outcome iff a file part was sent |
| ProtectedRoutes.RefusalReply | backend/server.js:49-56 | a refused part is answered 500 with `success: false` |
| ProtectedRoutes.PostProduct | backend/routes/products.js:98 | the gate stops or a refused part ends in the error handler with the table untouched; a created row implies the gate passed, the part was accepted and the row belongs to the verified user; conversely a passing gate and an accepted part reach the handler: 400 on a missing field, and success when the fields are complete, the upload did not fail and the user has a profile row |
| ProtectedRoutes.PutProduct | backend/routes/products.js:190 | the table changes only when the gate passes, the part is accepted and the verified user owns the row, and then only that row is merged; conversely a passing gate and an accepted part reach the handler: 404 for an unknown id, 403 for another seller's row, success for the owner |
| ProtectedRoutes.DeleteProduct | backend/routes/products.js:284 | the table changes only when the gate passes and the verified user owns the row, and then only that row is removed; conversely a passing gate reaches the handler: 404 for an unknown id, 403 for another seller's row, success for the owner |
| ProtectedRoutes.NullTokenReachesProvider | mini-marketplace/src/services/api.js:102-113 | `Bearer null` yields the token `null`: never the 401, and the request passes iff the provider verifies `null` |
| AuthRoutes.SignupErrorMessage | backend/routes/auth.js:41-61 | `already registered` wins, then `Password`, otherwise the provider's message is passed on |
| AuthRoutes.LoginErrorMessage | backend/routes/auth.js:157-184 | for invalid credentials, unknown user iff the email has no profile and wrong password iff it has; any other non-empty message is passed on; empty → `Invalid credentials` |
| AuthRoutes.Logout | backend/routes/auth.js:225-247 | success iff `signOut` succeeds; its error → 400 with the message; a throw → 500 |
| AuthRoutes.AuthService.Orphans | backend/routes/auth.js:91-111 | exactly the credentials without a profile row |
| AuthRoutes.AuthService.Signup | backend/routes/auth.js:7-136 | 400 for a missing field or unknown role with nothing called; otherwise the provider is called; success iff the provider created the user and the profile insert succeeds, adding exactly that credential and profile; a failed insert answers 500, deletes the credential and, when that works, adds no orphan |
| AuthRoutes.AuthService.Login | backend/routes/auth.js:139-222 | 400 without email or password; 401 with the classified message when the provider fails or no credential matches; 500 when the matched credential has no profile; success only with a matching credential's profile |
| AuthRoutes.AuthService.SignupThenLogin | backend/routes/auth.js:7-222 | when the provider held no credential with the email, a successful signup followed by a login with the same email and password succeeds for the created account, with the role chosen at signup |
| ApiService.OrElse | mini-marketplace/src/services/api.js:41 | `x \|\| fallback` on a possibly missing string |
| ApiService.Settle | mini-marketplace/src/services/api.js:36-48 | the body iff the response is ok, otherwise the body's message or the fallback; a network error is passed on |
| ApiService.BearerOf | mini-marketplace/src/services/api.js:110 | `Bearer ` and the token, spelt `null` when missing |
| ApiService.Client.GetToken | mini-marketplace/src/services/api.js:8-10 | the value stored under `token`, if any |
| ApiService.Client.SetToken | mini-marketplace/src/services/api.js:12-18 | a truthy token is stored, anything else removes it; no other key changes |
| ApiService.Client.Headers | mini-marketplace/src/services/api.js:21-29 | `Content-Type` defaults to JSON, caller headers are kept, and a truthy token without `skipAuth` sets the bearer value over any caller value |
| ApiService.Client.Request | mini-marketplace/src/services/api.js:20-49 | the assembled headers are sent and the result is the settled body with fallback `Something went wrong` |
| ApiService.Client.SignIn | mini-marketplace/src/services/api.js:52-77 | the request carries the stored token as its bearer header; after a successful reply with a session the session's access token is stored, or the token removed when the session carries none; otherwise storage is unchanged; no other key is ever touched |
| ApiService.Client.Logout | mini-marketplace/src/services/api.js:79-85 | the request carries the stored token as its bearer header; the token is cleared once the request returns, a thrown request leaves storage unchanged; no other key is ever touched |
| ApiService.Client.FetchProducts | mini-marketplace/src/services/api.js:88-100 | product reads never send `Authorization` |
| ApiService.Client.DeleteProduct | mini-marketplace/src/services/api.js:142-146 | `Authorization` is sent iff a truthy token is stored, as its bearer value |
| ApiService.Client.SendProductForm | mini-marketplace/src/services/api.js:102-140 | the only header is the bearer value, even with no token; failures fall back to `Failed to create product` / `Failed to update product` |
| AuthPage.PhoneValid | mini-marketplace/src/components/AuthPage.jsx:27 | a valid phone number has at least ten characters |
| AuthPage.EmailValid | mini-marketplace/src/components/AuthPage.jsx:33 | a valid email has at least five characters, an `@` and no space |
| AuthPage.PasswordValid | mini-marketplace/src/components/AuthPage.jsx:38 | the rule is the predicate's body, `password.length >= 6`; its ensures adds that the empty password never passes |
| AuthPage.NameValid | mini-marketplace/src/components/AuthPage.jsx:23 | `name.trim().length >= 2`; a passing name has at least two characters (NameValidIff gives the exact condition) |
| AuthPage.NameValidIff | mini-marketplace/src/components/AuthPage.jsx:23 | a name passes iff it has two non-whitespace characters |
| AuthPage.Digits | mini-marketplace/src/components/AuthPage.jsx:27 | the separator-free remainder of the phone number |
| AuthPage.PhoneValidIff | mini-marketplace/src/components/AuthPage.jsx:27 | a phone passes iff every character is a digit or a separator and ten remain without the separators |
| AuthPage.EmailValidIff | mini-marketplace/src/components/AuthPage.jsx:33 | the positional email test accepts exactly the texts `/^[^\s@]+@[^\s@]+\.[^\s@]+$/` matches |
| AuthPage.ValidEmailMatches | mini-marketplace/src/components/AuthPage.jsx:33 | an accepted text splits into run `@` run `.` run |
| AuthPage.MatchingEmailValid | mini-marketplace/src/components/AuthPage.jsx:33 | a text of the form run `@` run `.` run is accepted |
| AuthPage.FirstError | mini-marketplace/src/components/AuthPage.jsx:21-44 | no error iff every applicable rule passes; otherwise the message of the first failing rule in the order name, phone (signup only), email, password |
| AuthPage.LoginIgnoresNameAndPhone | mini-marketplace/src/components/AuthPage.jsx:22-31 | in login mode name and phone never affect validation |
| AuthPage.AuthForm.constructor | mini-marketplace/src/components/AuthPage.jsx:3-11 | login mode, every field empty, no error, for the role it is opened with |
| AuthPage.AuthForm.HandleChange | mini-marketplace/src/components/AuthPage.jsx:13-19 | the error is cleared and only the named field changes |
| AuthPage.AuthForm.SwitchMode | mini-marketplace/src/components/AuthPage.jsx:68-77 | the other mode, no error, all fields empty |
| AuthPage.AuthForm.SelectMode | mini-marketplace/src/components/AuthPage.jsx:107-128 | a tab switches only from the other mode and is otherwise a no-op |
| AuthPage.AuthForm.HandleSubmit | mini-marketplace/src/components/AuthPage.jsx:46-66 | no call iff validation fails, with its message; a valid form calls login (email, password, role) in login mode and signup (all fields, role) otherwise |
| BuyerDashboard.Keep | mini-marketplace/src/components/BuyerDashboard.jsx:9-12 | the test throws iff the name is missing, or it does not match and the description is missing; it keeps iff the name or the description contains the query, ignoring case |
| BuyerDashboard.Search | mini-marketplace/src/components/BuyerDashboard.jsx:9-12 | the buyer's `.filter`: when it does not throw, the result is no longer than the list and every product in it comes from the list and passes the test |
| BuyerDashboard.FilteredProducts | mini-marketplace/src/components/BuyerDashboard.jsx:9 | `(products \|\| []).filter(...)`: a missing list gives the empty result, otherwise every product kept comes from the list and passes the test |
| BuyerDashboard.ItemCount | mini-marketplace/src/components/BuyerDashboard.jsx:43 | the count shown is the length of the filtered list, when the filter does not throw |
| BuyerDashboard.SearchIsFilter | mini-marketplace/src/components/BuyerDashboard.jsx:9-12 | the search throws iff the test throws on some product, and otherwise equals `filter` with the test |
| BuyerDashboard.EmptyQueryKeepsAll | mini-marketplace/src/components/BuyerDashboard.jsx:9-12 | with every name present, the empty query keeps every product |
| BuyerDashboard.QueryCaseIgnored | mini-marketplace/src/components/BuyerDashboard.jsx:9-12 | the search gives the same result for a query and its lower-cased form |
| BuyerDashboard.SearchSameTest | mini-marketplace/src/components/BuyerDashboard.jsx:9-12 | two queries the test treats alike give the same search |
| SellerDashboard.Mine | mini-marketplace/src/components/SellerDashboard.jsx:17-22 | with no session a listing counts as the seller's exactly when its seller name, seller id or legacy seller id is missing |
| SellerDashboard.MyProducts | mini-marketplace/src/components/SellerDashboard.jsx:17-22 | only products the ownership test accepts; none without a product list |
| SellerDashboard.MyProductsSelects | mini-marketplace/src/components/SellerDashboard.jsx:17-22 | exactly the accepted products, in the original order |
| SellerDashboard.SameNameCountsAsMine | mini-marketplace/src/components/SellerDashboard.jsx:19 | another seller's product with the session user's name counts as their own |
| SellerDashboard.NoSessionMatchesMissing | mini-marketplace/src/components/SellerDashboard.jsx:17-22 | without a session any product missing a seller name or id counts as the seller's own |
| SellerDashboard.ImageError | mini-marketplace/src/components/SellerDashboard.jsx:33-44 | no error iff at most 5 MiB and the type starts with `image/`; the size check's message comes first |
| SellerDashboard.AcceptedImageFitsUpload | mini-marketplace/src/components/SellerDashboard.jsx:34 | an image the dashboard accepts is within the server's size limit |
| SellerDashboard.PayloadOf | mini-marketplace/src/components/SellerDashboard.jsx:59-66 | the payload carries the four text fields and the image only when chosen |
| SellerDashboard.EditForm | mini-marketplace/src/components/SellerDashboard.jsx:84-90 | the edit form holds the product's fields, `''` for missing ones, and no image |
| SellerDashboard.Dashboard.constructor | mini-marketplace/src/components/SellerDashboard.jsx:4-14 | no form shown, nothing being edited, no delete pending, an empty form and no error |
| SellerDashboard.Dashboard.ShowForm | mini-marketplace/src/components/SellerDashboard.jsx:137 | the form is shown and nothing else changes |
| SellerDashboard.Dashboard.HandleChange | mini-marketplace/src/components/SellerDashboard.jsx:24-27 | only the named field changes |
| SellerDashboard.Dashboard.HandleImageChange | mini-marketplace/src/components/SellerDashboard.jsx:29-48 | the error is cleared; a failing file sets that check's message and keeps the form; a passing file becomes the image |
| SellerDashboard.Dashboard.HandleSubmit | mini-marketplace/src/components/SellerDashboard.jsx:50-80 | no call iff adding without an image; an update call iff editing, an add call otherwise, with the form's payload; on return the form is emptied, hidden and the edit ends; on a throw its message or `Failed to save product` and the form kept |
| SellerDashboard.Dashboard.HandleEdit | mini-marketplace/src/components/SellerDashboard.jsx:82-93 | the product is being edited, the form filled from it and shown, no error |
| SellerDashboard.Dashboard.HandleCancelEdit | mini-marketplace/src/components/SellerDashboard.jsx:95-100 | no edit, an empty hidden form, no error |
| SellerDashboard.Dashboard.RequestDelete | mini-marketplace/src/components/SellerDashboard.jsx:322 | the confirmation opens for that product and nothing else changes |
| SellerDashboard.Dashboard.CancelDelete | mini-marketplace/src/components/SellerDashboard.jsx:344 | the confirmation closes and nothing else changes |
| SellerDashboard.Dashboard.HandleDelete | mini-marketplace/src/components/SellerDashboard.jsx:102-109 | deletes the id the confirmation holds (the button at line 350); the confirmation closes only when the delete returns; a throw shows its message or `Failed to delete product` |
| App.MessageOr | mini-marketplace/src/App.jsx:142 | `err.message \|\| fallback` |
| App.RoleMismatch | mini-marketplace/src/App.jsx:131-134 | the mismatch message contains both the account's registered role and the chosen one |
| App.SearchMatches | mini-marketplace/src/App.jsx:237-241 | a listing matches the search only if it has a name, a description or a category |
| App.FilteredProducts | mini-marketplace/src/App.jsx:237-241 | only products the header search accepts, never more than there are |
| App.FilteredSelects | mini-marketplace/src/App.jsx:237-241 | exactly the accepted products, in the original order |
| App.EmptyQuery | mini-marketplace/src/App.jsx:237-241 | the empty query keeps a product iff it has a name, description or category |
| App.SearchIgnoresQueryCase | mini-marketplace/src/App.jsx:237-241 | the header search gives the same result for a query and its lower-cased form |
| App.ShownDashboard | mini-marketplace/src/App.jsx:594-610 | the buyer's dashboard iff the dashboard view with role `buyer`, the seller's iff with role `seller` |
| App.AppState.constructor | mini-marketplace/src/App.jsx:83-90 | the product view, no session, no role, no chosen role, no products, no error and an empty search |
| App.AppState.LoadProducts | mini-marketplace/src/App.jsx:96-107 | a successful reply replaces the list, a failed one changes nothing, a throw sets `Failed to load products` |
| App.AppState.HandleShowAuth | mini-marketplace/src/App.jsx:109-112 | the sign-in view with no role chosen; nothing else changes |
| App.AppState.HandleBackToProducts | mini-marketplace/src/App.jsx:114-117 | the product view with no role chosen; nothing else changes |
| App.AppState.HandleRoleSelected | mini-marketplace/src/App.jsx:119 | the chosen role is recorded; nothing else changes |
| App.AppState.HandleLogin | mini-marketplace/src/App.jsx:121-146 | a successful reply for the chosen role signs in, opens the dashboard and reloads; another role only sets the mismatch error; a throw sets its message or `Login failed` |
| App.AppState.HandleSignup | mini-marketplace/src/App.jsx:148-166 | a successful reply signs in with the account's role, opens the dashboard and reloads; a throw sets its message or `Signup failed` |
| App.AppState.HandleLogout | mini-marketplace/src/App.jsx:168-178 | signed out and on the product view whatever the logout call did |
| App.AppState.HandleProductCall | mini-marketplace/src/App.jsx:180-235 | success reloads the products; a throw sets its message or the handler's fallback and is thrown on to the dashboard |

## Left out

- Supabase itself (queries, storage, auth) is not modelled. Its answers are
  parameters (`verify`, `StorageOutcome`, `SignUpOutcome`, `SignOutOutcome`,
  `fault`, `session`) or the maps held by `Store` and `AuthService`.
- Timestamps are not generated. `created_at` is the `now` parameter of
  `Store.Create`.
- The upload file name `${Date.now()}-${originalname}` is not modelled, because
  only the public URL the storage service returns is used.
- `parseFloat` is not interpreted: `Schema.Price` keeps the submitted text.
  For the same reason the seller dashboard's total value (`reduce` and
  `toFixed(2)`) is not modelled.
- The development-only auto-confirmation of a new account
  (`backend/routes/auth.js:63-73`) is not modelled, because its failure is
  only logged and changes no reply.
- The `error` detail field of the 500 replies is not modelled. This covers
  `Authentication error`, `Server error` and the routes' catch blocks; the
  error handler's `error` is modelled.
- Products.Store.List: a database error on the query, which answers 500, is
  not modelled. The same goes for the generic query errors of `Get`,
  `Update` and `Delete`. Their only modelled failure is the insert that
  violates the owner's foreign key in `Create`.
- Products.Store.Get: any query error answers 404 in the source. The model
  gives 404 only for a missing id.
- A non-numeric `:id` route parameter is not modelled: ids are `nat`.
- AuthRoutes.AuthService.Login: the provider's choice among several
  credentials with the same email and password is nondeterministic in the
  model. E-mail matching is exact, not case-insensitive as the provider's
  may be.
- AuthRoutes.AuthService.Signup: whether the provider rejects an email it
  already holds is the `outcome` parameter, not derived from `accounts`.
- The backend `logout` route signs out the server's shared client. This
  needs no request token, so the model takes only the provider's outcome.
- Console logging, the `loading` flags, toasts, animations, the product
  modal and card and all JSX rendering are not modelled. The interleaving of
  concurrent handlers is also not modelled: each handler runs to completion
  on the outcome of its awaited calls.
- `backend/test-connection.js` is not part of this model.
- Text handling is ASCII only. `toLowerCase` lower-cases `A`–`Z`, and `\s`
  and `trim` recognise space, tab, line feed, vertical tab, form feed and
  carriage return but not the other Unicode spaces.
- `path.extname` is modelled for POSIX paths. Windows separators are not
  modelled.
- Multer's handling of several file parts, and of fields after the file, is
  not modelled. One optional `image` part is.
