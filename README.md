# lvlup tienda: cart, user and login services in Dafny

This project models the core of the lvlup shop backend:

- **Cart service** (`CartService`). Each user has one cart, created empty the first time it is asked for. The service adds products, sets a line's quantity, removes a line, clears the cart and computes the total. Every add and update checks the product's stock. An add check uses the cumulative quantity the cart would then hold. A new line records the product's price at that moment, and totals use that recorded price. A quantity of zero or less removes the line. Failed calls roll back, including the creation of a cart.
- **User service** (`UserServiceImpl.save` and `update`).
  - `save` insists on a non-blank password. It maps the free-text `rol` to one of `ROLE_ADMIN`, `ROLE_VENDEDOR` or `ROLE_CLIENTE`. The transient admin flag adds `ROLE_ADMIN`. The password is then encoded and the user inserted.
  - `update` patches only the fields the request fills in. It replaces the roles when the `rol` text changes, and re-encodes the password only when a new one is given.
- **Login lookup** (`JpaUserDetailsService.loadUserByUsername`). It finds a user by e-mail. The authority list is every role name, followed by the permission names of each role whose permission list is not null.

Modules:

- `Wrappers`: `Option` and `Result`.
- `JavaInt`: 32-bit `int` wrap-around.
- `JavaText`: `trim`, `isBlank` and `toUpperCase` as the services use them.
- `Carts`: the cart service.
- `Users`: users, roles and the user service.
- `UserDetails`: the login lookup.

How the source's state is modelled:

- The mutating services are classes whose fields stand for the repository tables. These are maps keyed by id, plus the identity counters a database would assign.
- Each state-changing method ensures that its result equals a pure specification function of the old state.
- The lemmas about those functions state what the source promises:
  - an invariant the store keeps;
  - the effect on totals and quantities;
  - the error cases in both directions;
  - idempotence of a repeated request, up to a freshly encoded password.
- The password encoder is a function parameter of the user service. Repository lookups are map lookups. `findByCorreo` picks any stored user with that e-mail.

## Model

| member | source | states |
|---|---|---|
| JavaInt.Wrap | src/main/java/com/lvlup/tienda/services/carts/CartService.java:69 | A Java `int` sum is the mathematical sum reduced into the 32-bit range. It is congruent modulo 2^32, and it is the identity on in-range values. |
| Carts.LinesTotal | src/main/java/com/lvlup/tienda/services/carts/CartService.java:164-166 | The cart total: the fold of price snapshot times quantity over the lines. Its properties are stated by the lemmas below. |
| Carts.Subtotal | src/main/java/com/lvlup/tienda/services/carts/CartService.java:165 | One line's part of the total: its recorded price times its quantity. |
| Carts.TotalNonNegative | src/main/java/com/lvlup/tienda/services/carts/CartService.java:164-166 | With no negative price or quantity on any line, the total is not negative. |
| Carts.TotalAppend | src/main/java/com/lvlup/tienda/services/carts/CartService.java:164-166 | The reduce over price times quantity is additive over a concatenation of lines. |
| Carts.TotalSplit | src/main/java/com/lvlup/tienda/services/carts/CartService.java:164-166 | The total splits around any one line into the prefix, that line's subtotal and the suffix. |
| Carts.RemoveAt | src/main/java/com/lvlup/tienda/services/carts/CartService.java:142 | Removing a line keeps every other line in order. The lines before it stay put and those after it shift down by one. |
| Carts.TotalRemoveAt | src/main/java/com/lvlup/tienda/services/carts/CartService.java:142 | Deleting a line lowers the total by exactly that line's price times quantity. |
| Carts.TotalSetQuantity | src/main/java/com/lvlup/tienda/services/carts/CartService.java:120 | Overwriting a quantity moves the total by the line's recorded price times the change in quantity. |
| Carts.IndexOfProduct | src/main/java/com/lvlup/tienda/services/carts/CartService.java:62-64 | `filter(...).findFirst()`: the first line with that product id. It is None exactly when no line has the product. |
| Carts.IndexOfLine | src/main/java/com/lvlup/tienda/services/carts/CartService.java:98-104 | The position of the line with a given id. It is None exactly when the cart has no such line. |
| Carts.IncrementAsWritten | src/main/java/com/lvlup/tienda/services/carts/CartService.java:69-74 | The cumulative check with the 32-bit `int` sum. It agrees with the intended check whenever the sum does not overflow. |
| Carts.IncrementAsWrittenOverflows | src/main/java/com/lvlup/tienda/services/carts/CartService.java:69-72 | With stock and quantity both at the largest `int`, adding one unit passes the check and yields a negative quantity. The intended check refuses it. |
| Carts.Increment | src/main/java/com/lvlup/tienda/services/carts/CartService.java:69-76 | The cumulative quantity is accepted exactly when the stock covers it, and it then becomes the line's new quantity. |
| Carts.StoreReplace | src/main/java/com/lvlup/tienda/services/carts/CartService.java:88 | Storing a well-formed cart under its owner keeps the store invariant if the cart keeps its owner's cart id and shares no line id with other carts. The invariant is: one cart per user, distinct cart ids, and line ids unique across carts. |
| Carts.SetQuantityKeepsStore | src/main/java/com/lvlup/tienda/services/carts/CartService.java:120-121 | Overwriting one line's quantity keeps the store invariant. |
| Carts.RemoveKeepsStore | src/main/java/com/lvlup/tienda/services/carts/CartService.java:116-117 | Deleting one line keeps the store invariant. |
| Carts.AppendKeepsStore | src/main/java/com/lvlup/tienda/services/carts/CartService.java:80-85 | Appending a line keeps the store invariant if its id is fresh and the cart holds no line for its product yet. |
| Carts.CartOf | src/main/java/com/lvlup/tienda/services/carts/CartService.java:32-43 | The cart a call works on: the stored cart if there is one, otherwise an empty cart for the user with the next cart id. |
| Carts.NextCartId | src/main/java/com/lvlup/tienda/services/carts/CartService.java:40-42 | The cart counter advances by one exactly when the user had no cart. |
| Carts.CreateKeepsStore | src/main/java/com/lvlup/tienda/services/carts/CartService.java:32-43 | Fetching or creating the cart keeps the store invariant. The cart returned belongs to the caller and is well formed. |
| Carts.CreateIdempotent | src/main/java/com/lvlup/tienda/services/carts/CartService.java:32-43 | A second fetch returns the cart the first one stored, and it neither creates a cart nor changes anything. |
| Carts.AnyCartHasLine | src/main/java/com/lvlup/tienda/services/carts/CartService.java:98-99 | `findById` on the items finds a line exactly when some stored cart holds a line with that id. |
| Carts.AddEmptyCartKeepsLines | src/main/java/com/lvlup/tienda/services/carts/CartService.java:96-99 | Creating the caller's empty cart does not change whether `findById` finds a line. |
| Carts.OwnershipByCartId | src/main/java/com/lvlup/tienda/services/carts/CartService.java:101-104 | Under the store invariant, a stored line carries the caller's cart id exactly when it is one of the caller's lines. |
| Carts.AddToCart | src/main/java/com/lvlup/tienda/services/carts/CartService.java:49-89 | The add keeps the cart's id and owner and adds at most one line. It fails only with product-not-found or insufficient stock, and insufficient stock of a known product carries that product's stock count. |
| Carts.AddToCartFails | src/main/java/com/lvlup/tienda/services/carts/CartService.java:51-74 | Not-found happens exactly when the product is unknown. The add fails exactly when the product is unknown, the stock is below the request, or the stock is below the cumulative quantity. |
| Carts.AddToCartEffect | src/main/java/com/lvlup/tienda/services/carts/CartService.java:61-86 | A successful add either grows the product's existing line by the quantity, every other line untouched, or keeps every line and appends one with the new id, the requested quantity and the product's current price. The product's units rise by the quantity and other products' units stay. The total rises by the quantity times the price: the existing line's recorded price, or the current price for a new line. |
| Carts.AddToCartKeepsStore | src/main/java/com/lvlup/tienda/services/carts/CartService.java:59-88 | A successful add keeps the store invariant. The cart counter moves by the cart the call created, and the line counter by the line it created. |
| Carts.AddToCartWithinStock | src/main/java/com/lvlup/tienda/services/carts/CartService.java:54-76 | A successful add leaves no line above its product's stock. |
| Carts.UpdateInStore | src/main/java/com/lvlup/tienda/services/carts/CartService.java:95-125 | The update keeps the cart id. It removes one line when the quantity is at most zero and otherwise keeps the line count. Line-not-found happens exactly when no cart holds the line. A line held only by another user's cart is refused as not the caller's. An unknown product gives product-not-found, and a stock below the new quantity gives insufficient stock carrying that stock count. The update succeeds exactly when the caller owns the line, its product exists and the stock covers the new quantity. |
| Carts.RemoveFromStore | src/main/java/com/lvlup/tienda/services/carts/CartService.java:131-146 | The removal removes exactly one line. It fails only when the line is not found or is not the caller's. Line-not-found happens exactly when no cart holds the line, a line held only by another user's cart gives not-the-caller's, and it succeeds exactly when the caller's cart holds the line. |
| Carts.UpdateToZeroRemoves | src/main/java/com/lvlup/tienda/services/carts/CartService.java:110-117 | Updating to zero is removal, given existing products with non-negative stock. |
| Carts.RemoveLineEffect | src/main/java/com/lvlup/tienda/services/carts/CartService.java:142-145 | After a removal the lines are the old ones with that line taken out and the others kept in order, so a line is present exactly when it was present before and has a different id. The total drops by the removed line's subtotal. |
| Carts.UpdateLineEffect | src/main/java/com/lvlup/tienda/services/carts/CartService.java:110-122 | An update to zero or less is the removal. A positive update changes only that line, to exactly that quantity. The stock covers the new quantity. |
| Carts.UpdateLineTotal | src/main/java/com/lvlup/tienda/services/carts/CartService.java:114-122 | The total moves by the line's recorded price times the change in its quantity. A deleted line counts as zero. |
| Carts.UpdateInStoreKeepsStore | src/main/java/com/lvlup/tienda/services/carts/CartService.java:114-124 | A successful update keeps the store invariant and the stock bound. |
| Carts.RemoveFromStoreKeepsStore | src/main/java/com/lvlup/tienda/services/carts/CartService.java:142-145 | A successful removal keeps the store invariant and the stock bound. |
| Carts.StockScenario | src/main/java/com/lvlup/tienda/services/carts/CartService.java:49-125 | Stock 5 at price 1000 gives: adding 3 makes a total of 3000; adding 3 more fails with stock 5; setting the line to 0 empties the cart. |
| Carts.IncrementOrAppend | src/main/java/com/lvlup/tienda/services/carts/CartService.java:61-86 | Once the product is known to exist with stock for the request, growing the existing line or appending a new one gives exactly `AddToCart`, including the refusal when the cumulative quantity exceeds the stock. |
| Carts.CartService.GetOrCreateCart | src/main/java/com/lvlup/tienda/services/carts/CartService.java:32-43 | Returns the stored cart, or stores a new empty one under the next cart id. Keeps the invariants. |
| Carts.CartService.GetCart | src/main/java/com/lvlup/tienda/services/carts/CartService.java:173-175 | The same lazy fetch as GetOrCreateCart. |
| Carts.CartService.FindLine | src/main/java/com/lvlup/tienda/services/carts/CartService.java:98-99 | `findById` on the items: it finds a line with that id in some cart, and it is None exactly when there is none. |
| Carts.CartService.AddProduct | src/main/java/com/lvlup/tienda/services/carts/CartService.java:48-89 | The result is `AddToCart` on the caller's cart. An error leaves the tables and counters unchanged (rollback); success stores the cart. Keeps the invariant and the stock bound. |
| Carts.CartService.UpdateQuantity | src/main/java/com/lvlup/tienda/services/carts/CartService.java:94-125 | The result is `UpdateInStore`, reached through the cart-id ownership test. Errors roll back; success stores the cart. |
| Carts.CartService.RemoveLine | src/main/java/com/lvlup/tienda/services/carts/CartService.java:130-146 | The result is `RemoveFromStore`. Errors roll back; success stores the cart. |
| Carts.CartService.Clear | src/main/java/com/lvlup/tienda/services/carts/CartService.java:151-156 | The user's cart is kept (created if absent) with no lines, so its total is 0. |
| Carts.CartService.CartTotal | src/main/java/com/lvlup/tienda/services/carts/CartService.java:161-167 | The total is the sum of the recorded prices times the quantities of the caller's cart. A user without a cart gets a new cart and a total of 0. |
| JavaText.Trim | src/main/java/com/lvlup/tienda/services/users/UserServiceImpl.java:51 | `trim()`: the result is the part of the text between its leading and trailing runs of characters at or below U+0020. It starts and ends with a character above U+0020, and it is empty exactly when every character is at or below U+0020. |
| JavaText.IsBlank | src/main/java/com/lvlup/tienda/services/users/UserServiceImpl.java:51 | `trim().isEmpty()` holds exactly when every character is at or below U+0020. |
| JavaText.ToUpper | src/main/java/com/lvlup/tienda/services/users/UserServiceImpl.java:65 | The ASCII model of `toUpperCase()`: each character is upper-cased in place, ASCII letters only, so the length is kept. Java's full case mapping is not modelled (see Left out). |
| JavaText.ToUpperChars | src/main/java/com/lvlup/tienda/services/users/UserServiceImpl.java:146 | Upper-cased text has no lower-case ASCII letter. |
| Users.SameRole | src/main/java/com/lvlup/tienda/models/users/Role.java:44-49 | `Role.equals`: two roles are equal when their ids and names are equal. Permissions are not compared. |
| Users.SaveRoleKey | src/main/java/com/lvlup/tienda/services/users/UserServiceImpl.java:56-82 | The `save` switch picks a standard role. It picks ROLE_ADMIN exactly for the text "ADMIN" once upper-cased, and ROLE_VENDEDOR exactly for "VENDEDOR". Null, empty or other text picks ROLE_CLIENTE. |
| Users.UpdateRoleKey | src/main/java/com/lvlup/tienda/services/users/UserServiceImpl.java:150-159 | The `update` mapping yields a standard role: either "ROLE_" followed by the upper-cased text, or ROLE_CLIENTE. |
| Users.RoleKeysAgree | src/main/java/com/lvlup/tienda/services/users/UserServiceImpl.java:150-159 | `update`'s "ROLE_" key and `save`'s switch map every role text to the same role. |
| Users.SavedRoles | src/main/java/com/lvlup/tienda/services/users/UserServiceImpl.java:62-93 | The call fails exactly when the mapped role, or ROLE_ADMIN under the admin flag, is missing, and it names the missing role. On success: 1–2 roles from the table, distinct under `Role.equals` (same id and name), the mapped role first, ROLE_ADMIN present under the flag, and a single role without it. |
| Users.SavedRolesCount | src/main/java/com/lvlup/tienda/services/users/UserServiceImpl.java:85-91 | An admin registration holds two roles exactly when the role text did not already map to ROLE_ADMIN. |
| Users.UpdatedRoles | src/main/java/com/lvlup/tienda/services/users/UserServiceImpl.java:149-160 | After a role change the user holds at most one role, drawn from the table. The list is empty exactly when the lookup finds nothing. |
| Users.UpdatedRolesAsSaved | src/main/java/com/lvlup/tienda/services/users/UserServiceImpl.java:145-161 | After a role change the roles are those a non-admin `save` with the same text would store. When `save` would fail, the roles are empty. |
| Users.Patch | src/main/java/com/lvlup/tienda/services/users/UserServiceImpl.java:111-138 | A field takes the incoming value when it has text and otherwise keeps the current one, so a field that has text never loses it. |
| Users.PatchedFields | src/main/java/com/lvlup/tienda/services/users/UserServiceImpl.java:111-142 | The nine patched columns. Each text column takes the request's value when it has text and otherwise keeps the stored value; the birth date is replaced exactly when the request sends one. Identity, password, role text, roles and the admin flag stay as stored, a complete user stays complete, and a request that fills in nothing changes nothing. |
| Users.Merged | src/main/java/com/lvlup/tienda/services/users/UserServiceImpl.java:111-168 | The updated user is the patched columns plus the role change and the password. A role change stores the upper-cased text, which holds no lower-case ASCII letter, and the looked-up roles; otherwise both stay. A usable new password is stored encoded, and otherwise the old hash stays. |
| Users.MergedKeepsComplete | src/main/java/com/lvlup/tienda/services/users/UserServiceImpl.java:107-142 | An update never empties a NOT NULL column that held a value. |
| Users.MergedEmptyRequest | src/main/java/com/lvlup/tienda/services/users/UserServiceImpl.java:111-168 | A request that fills in nothing leaves the stored user unchanged. |
| Users.MergedIdempotent | src/main/java/com/lvlup/tienda/services/users/UserServiceImpl.java:103-171 | Applying the same request twice stores the same columns, role text and roles as applying it once; only the password hash can differ, because it is encoded again. A request without a usable password stores exactly the same user. |
| Users.UserService.BuildRoles | src/main/java/com/lvlup/tienda/services/users/UserServiceImpl.java:55-93 | The switch and the admin add produce exactly `SavedRoles`. |
| Users.UserService.Save | src/main/java/com/lvlup/tienda/services/users/UserServiceImpl.java:48-99 | A null or blank password gives PasswordRequired. A missing role gives its error. Otherwise the user is inserted under the next id, which no stored user holds, with the encoded password and the `SavedRoles` roles, so one row is added and none is overwritten. Errors store nothing. |
| Users.UserService.PatchColumns | src/main/java/com/lvlup/tienda/services/users/UserServiceImpl.java:111-142 | The setter calls produce exactly the patched fields. |
| Users.UserService.ReplacementRoles | src/main/java/com/lvlup/tienda/services/users/UserServiceImpl.java:148-160 | The role lookup after a change produces exactly `UpdatedRoles`. |
| Users.UserService.ApplyRequest | src/main/java/com/lvlup/tienda/services/users/UserServiceImpl.java:111-167 | The setter sequence produces exactly the merged user. |
| Users.UserService.Update | src/main/java/com/lvlup/tienda/services/users/UserServiceImpl.java:103-171 | An unknown id gives UserNotFound and changes nothing. Otherwise the merged user is stored under that id. |
| UserDetails.RoleNames | src/main/java/com/lvlup/tienda/services/users/JpaUserDetailsService.java:34-38 | One authority per role. |
| UserDetails.PermissionList | src/main/java/com/lvlup/tienda/services/users/JpaUserDetailsService.java:43-45 | One authority per permission. |
| UserDetails.OwnPermissionNames | src/main/java/com/lvlup/tienda/services/users/JpaUserDetailsService.java:42-46 | A role with a null list contributes no permission authority, and otherwise one per permission. |
| UserDetails.PermissionNames | src/main/java/com/lvlup/tienda/services/users/JpaUserDetailsService.java:41-47 | One permission authority per permission of every role, null lists counting none. |
| UserDetails.Authorities | src/main/java/com/lvlup/tienda/services/users/JpaUserDetailsService.java:31-47 | The authority list has one entry per role plus one per permission, nothing removed as a duplicate: the role names first, then the permission names. |
| UserDetails.RoleNamesAt | src/main/java/com/lvlup/tienda/services/users/JpaUserDetailsService.java:34-38 | The i-th role authority is the i-th role's name. |
| UserDetails.PermissionListAt | src/main/java/com/lvlup/tienda/services/users/JpaUserDetailsService.java:43-45 | The j-th permission authority of a role is its j-th permission's name. |
| UserDetails.RoleNamesAppend | src/main/java/com/lvlup/tienda/services/users/JpaUserDetailsService.java:34-38 | The role authorities of a concatenation are those of each part, in order. |
| UserDetails.PermissionNamesAppend | src/main/java/com/lvlup/tienda/services/users/JpaUserDetailsService.java:41-47 | The permission authorities of a concatenation are those of each part, in order. |
| UserDetails.NullPermissionsOnlyName | src/main/java/com/lvlup/tienda/services/users/JpaUserDetailsService.java:42 | A role with a null permission list contributes its name and nothing else. |
| UserDetails.OwnPermissionNamesMembers | src/main/java/com/lvlup/tienda/services/users/JpaUserDetailsService.java:42-46 | A name is among a role's permission authorities exactly when the role's list is non-null and holds a permission with that name. |
| UserDetails.PermissionMembers | src/main/java/com/lvlup/tienda/services/users/JpaUserDetailsService.java:41-47 | A name is a permission authority exactly when some role grants a permission with that name. |
| UserDetails.AuthorityMembers | src/main/java/com/lvlup/tienda/services/users/JpaUserDetailsService.java:30-47 | A name is an authority exactly when it is some role's name or some permission's name. |
| UserDetails.AdminRegistrationGrantsAdmin | src/main/java/com/lvlup/tienda/services/users/UserServiceImpl.java:85-91 | A successful admin-flag registration logs in with the ROLE_ADMIN authority. |
| UserDetails.AddPermissionNames | src/main/java/com/lvlup/tienda/services/users/JpaUserDetailsService.java:43-45 | The inner forEach appends exactly the role's permission names, in order. |
| UserDetails.AddRoleNames | src/main/java/com/lvlup/tienda/services/users/JpaUserDetailsService.java:34-38 | The `addAll` builds exactly the role names, in order. |
| UserDetails.AddRolePermissions | src/main/java/com/lvlup/tienda/services/users/JpaUserDetailsService.java:41-47 | The outer forEach appends exactly the permission authorities, skipping null lists. |
| UserDetails.BuildAuthorities | src/main/java/com/lvlup/tienda/services/users/JpaUserDetailsService.java:31-47 | The accumulated list is the role names followed by the permission names. |
| UserDetails.HasUser | src/main/java/com/lvlup/tienda/services/users/JpaUserDetailsService.java:27-28 | `findByCorreo` finds a user exactly when the e-mail is among the stored users' e-mails. |
| UserDetails.LoadUserByUsername | src/main/java/com/lvlup/tienda/services/users/JpaUserDetailsService.java:26-58 | An unknown e-mail gives UsernameNotFound exactly when no user has it. Otherwise the result is an enabled, unexpired, unlocked principal named by the e-mail, with that user's hash and authorities. |

## Left out

- Persistence, transactions and repositories are modelled as maps and counters, so JPA flushing, cascades and lazy loading are not. A rollback is modelled by restoring the fields on every error path.
- Concurrency is not modelled: two requests against the same cart or the same stock, and the last-writer-wins races between them. Each call runs alone.
- Carts.CartService.AddProduct: does not model the `@Min(1)` bean validation on `CartItem.quantity` (src/main/java/com/lvlup/tienda/models/carts/CartItem.java:28). That check happens at flush time, outside the service, so the model accepts any quantity the stock covers, as the service code does.
- Carts.CartService.AddProduct: takes an `int` product id, so a null `productId` is not modelled. The request's `productId` is an unvalidated `Long` (src/main/java/com/lvlup/tienda/controllers/carts/CartController.java:197-207), and a null reaches `productRepository.findById` (src/main/java/com/lvlup/tienda/services/carts/CartService.java:51). There Spring Data throws an IllegalArgumentException instead of the product-not-found error, and the transaction rolls back.
- Carts.CartService.UpdateQuantity: takes an `int`, so a null `newQuantity` is not modelled. The controller passes the request's quantity with no default (src/main/java/com/lvlup/tienda/controllers/carts/CartController.java:102). In the source a null then fails with a NullPointerException at the stock comparison (src/main/java/com/lvlup/tienda/services/carts/CartService.java:110), after the ownership check, and the transaction rolls back.
- The controller's default quantity of 1 (src/main/java/com/lvlup/tienda/controllers/carts/CartController.java:67) belongs to the web layer.
- Carts.CartService.AddProduct: uses the intended unbounded sum for `item.getQuantity() + quantity`. The 32-bit wrap-around is modelled separately; see Findings.
- Product stock is only read, never decremented, because the cart service does not change products. Changes to stock made outside the service are not modelled.
- Prices are Java `Integer` values turned into `BigDecimal`. The model uses unbounded integers, which is exact for that conversion.
- No `@Transactional(readOnly = true)` distinction on `getCartByUserId`: the model creates the cart as the code is written. Whether a read-only transaction lets that insert through depends on the database and its driver, and is not modelled.
- The `Cart` entity is not part of this model. `addCartItem` and `removeCartItem` are modelled as appending to and removing from its line sequence.
- Users.UserService.Save: ignores any id the incoming user carries. The model always inserts under a new id, rather than merging into an existing row as JPA would.
- Uniqueness of `correo` and `rut`, and the database's column constraints, are not modelled.
- Users.UserService.Save: the transient `admin` flag is stored with the user value. It has no column in the database.
- The password encoder is a deterministic function parameter. BCrypt's random salt is not modelled. Users.MergedIdempotent therefore excludes the password hash from its equality whenever a password is sent, since BCrypt stores a new hash on each call.
- JavaText.ToUpper: does not model Java's full `toUpperCase`. Only ASCII letters are upper-cased, with no locale. Java also maps other letters, some to longer text: `"ß"` becomes `"SS"`, so the length can change. It maps the dotless `'ı'` (U+0131) to `'I'`, so in Java `save` with `"admın"` gets ROLE_ADMIN while the model gives ROLE_CLIENTE.
- `trim` is modelled as Java's strip of characters at or below U+0020.
- `Role.java` in this source declares no permissions field. The role's permission list is modelled as an optional sequence, as `loadUserByUsername` reads it.
- UserDetails.LoadUserByUsername: returns the authority list as built. Spring's `User` constructor sorts it, removes duplicates and rejects nulls, which is not modelled.
- `SimpleGrantedAuthority`'s rejection of an empty name is not modelled.
- `findAll`, `findById`, `findByCorreo`, `delete`, `existsByCorreo` and `existsByRut` of the user service are repository pass-throughs outside the core. `ProductService`, the controllers and the security configuration are outside the core too.
- The in-place setters on the `User` entity are modelled as one value update of the stored user.

## Findings

| source | as written | input that shows it | evidently intended | confidence | as-written member | corrected member |
|---|---|---|---|---|---|---|
| src/main/java/com/lvlup/tienda/services/carts/CartService.java:69 | `int newQuantity = item.getQuantity() + quantity` wraps around in 32 bits before the stock check on line 72. | stock 2147483647, existing line quantity 2147483647, add 1: the sum wraps to -2147483648 and passes `stock < newQuantity`, so the service sets the line to that negative quantity. If the `@Min(1)` bean validation on `CartItem.quantity` is active, it rejects the row at flush rather than storing it. | The cumulative quantity is accepted only when the stock covers the true sum. | medium, not executed | Carts.IncrementAsWritten, Carts.IncrementAsWrittenOverflows | Carts.Increment |
