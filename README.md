# Nebula marketplace: cart, emulated backends and support chatbot

This project models the client-side core of the Nebula marketplace in Dafny.
That core is everything the shop runs in the browser without a server:

- **The shopping cart** (`lib/cartStore.js`). It is an ordered list of line
  items in local storage under `marketplace_cart`. A line item is keyed by
  product id. Products can be added (increment or append), removed, have their
  quantity set (zero or less removes the line) and be cleared. The cart also
  gives a total and an item count. Module `CartStore` holds the pure
  operations `Added`, `Removed`, `Updated`, `Total` and `ItemCount`. Class
  `CartStore.CartStore` holds the stored cart. `AddToCart`, `RemoveFromCart`,
  `UpdateQuantity`, `GetTotal` and `GetItemCount` are proved equal to the
  matching function. `GetCart`, `SaveCart` and `ClearCart` state the stored
  cart directly.
- **The emulated Firebase backend** (`lib/firebaseClientMock.js`). It keeps:
  - an account map from email to account record, with JavaScript `Map`
    semantics: insertion order, distinct keys, replace in place;
  - products, orders, a chat transcript and the current session;
  - auth operations that notify registered listeners;
  - a path-routed database with `set`, `get`, `on` and `push`;
  - a flush of every mutation to five local-storage keys, reloaded at start-up.

  Module `FirebaseModel` gives the state and every transition as pure
  functions. Module `FirebaseProperties` proves what the transitions
  guarantee. Class `FirebaseMock.Backend` is the mutable module state. Its
  methods are proved against those functions, and it logs each listener
  invocation in a `delivered` list.
- **The older emulated Supabase auth** (`lib/supabaseClientMock.js`). It has
  an in-memory user map, one indistinguishable error for every failed
  sign-in, a demo-user fallback, and a listener registration that does
  nothing. This is class `SupabaseMock.SupabaseAuth`.
- **The support chatbot** (`components/Chatbot.js`). It chooses a reply by
  ordered, case-insensitive keyword containment. Its send action appends the
  user's message and the reply to the transcript and saves the transcript to
  the emulated database. This is module `Chatbot`.
- **The cart page's checkout** (`pages/cart.js`). It joins the cart to the
  database. This is module `Checkout`.

JavaScript values stored in the backend are modelled by `JsValues.Value`.
The model covers:

- a missing field reading as `undefined`;
- object spread;
- truthiness;
- `String(v)`;
- `path.split('/')[1]`.

Nothing outside the program is modelled as such. Generated ids, `Date.now()`
and ISO timestamps are parameters of the operations that use them. Local
storage is a map from key to a stored value (see "Storage format" below). Whether a
browser window exists is a constant of each store.

## Model

| member | source | states |
|---|---|---|
| `CartStore.IndexOf` | lib/cartStore.js:22 | `find` by id: the result is the first line carrying the id, or -1 exactly when no line carries it |
| `CartStore.CartStore.constructor` | lib/cartStore.js:8-17 | a page load reads the persisted cart, or the empty cart when there is no window |
| `CartStore.CartStore.GetCart` | lib/cartStore.js:8-17 | returns the stored cart; empty when there is no window |
| `CartStore.CartStore.SaveCart` | lib/cartStore.js:81-88 | the stored cart becomes the given cart; with no window nothing changes |
| `CartStore.CartStore.AddToCart` | lib/cartStore.js:20-35 | the returned cart is `Added(old cart, p)` and is the one saved |
| `CartStore.CartStore.RemoveFromCart` | lib/cartStore.js:38-43 | the returned and saved cart is the old cart without the lines carrying the id |
| `CartStore.CartStore.UpdateQuantity` | lib/cartStore.js:46-59 | the returned and saved cart is `Updated(old cart, id, q)`; a quantity of 0 or less on a present line goes through `RemoveFromCart` |
| `CartStore.CartStore.ClearCart` | lib/cartStore.js:62-66 | returns the empty cart and leaves the empty cart stored |
| `CartStore.CartStore.GetTotal` | lib/cartStore.js:69-72 | the total is the fold of price times quantity; it is non-negative when prices are non-negative and quantities positive |
| `CartStore.CartStore.GetItemCount` | lib/cartStore.js:75-78 | the count is the fold of quantities; with positive quantities it is at least the number of lines |
| `CartStore.AddExistingIncrements` | lib/cartStore.js:22-25 | adding a product already in the cart raises the first matching line's quantity by one and changes nothing else; no line is added |
| `CartStore.AddNewAppends` | lib/cartStore.js:26-31 | adding a product not in the cart appends `{...product, quantity: 1}` at the end |
| `CartStore.AddTwiceGivesQuantityTwo` | lib/cartStore.js:20-35 | adding the same new product twice gives one line with quantity 2 |
| `CartStore.RemovedMembership` | lib/cartStore.js:40 | a line survives removal if and only if it was in the cart and carries another id |
| `CartStore.RemovedConcat` | lib/cartStore.js:40 | removal keeps the order of the remaining lines (it distributes over concatenation) |
| `CartStore.RemovedAbsent` | lib/cartStore.js:40 | removing an id no line carries leaves the cart unchanged |
| `CartStore.UpdateNonPositiveRemoves` | lib/cartStore.js:50-53 | a quantity of 0 or less on a present line equals removal, and no line with that id remains |
| `CartStore.UpdatePositiveSets` | lib/cartStore.js:54 | a positive quantity on a present line sets that line's quantity and changes no other line |
| `CartStore.UpdateAbsentUnchanged` | lib/cartStore.js:47-58 | updating an id that is not in the cart leaves the cart as it was, whatever the quantity |
| `CartStore.OperationsKeepPositive` | lib/cartStore.js:20-59 | adding, removing and updating keep every line's quantity at least 1 |
| `CartStore.TotalConcat` | lib/cartStore.js:69-78 | total and item count are additive over concatenated carts |
| `CartStore.TotalReplace` | lib/cartStore.js:69-78 | replacing one line changes the total and the count by that line's difference |
| `CartStore.AddRaisesCountByOne` | lib/cartStore.js:20-35 | adding a product raises the item count by exactly one and the total by the price on the line that grew |
| `CartStore.ItemCountAtLeastLines` | lib/cartStore.js:75-78 | with positive quantities the item count is at least the number of lines |
| `CartStore.TotalNonNegative` | lib/cartStore.js:69-72 | with non-negative prices and positive quantities the total is non-negative |
| `CartStore.CartSurvivesRestart` | lib/cartStore.js:20-35 | a product added to an empty cart is read back by a fresh store, as one line with quantity 1 |
| `CartStore.ClearThenRead` | lib/cartStore.js:62-78 | after `clearCart` on any cart, `getTotal` and `getItemCount` both answer 0 |
| `CartStore.Added` | lib/cartStore.js:20-35 | definition of the cart `addToCart` leaves; characterised by `AddExistingIncrements`, `AddNewAppends` and `AddRaisesCountByOne` |
| `CartStore.Removed` | lib/cartStore.js:38-43 | definition of the filter by id; characterised by `RemovedMembership`, `RemovedConcat` and `RemovedAbsent` |
| `CartStore.Updated` | lib/cartStore.js:46-59 | definition of the cart `updateQuantity` leaves; characterised by `UpdateNonPositiveRemoves`, `UpdatePositiveSets` and `UpdateAbsentUnchanged` |
| `CartStore.Total` | lib/cartStore.js:69-72 | definition of the left fold of price times quantity; characterised by `TotalConcat`, `TotalReplace` and `TotalNonNegative` |
| `CartStore.ItemCount` | lib/cartStore.js:75-78 | definition of the left fold of quantities; characterised by `TotalConcat` and `ItemCountAtLeastLines` |
| `JsValues.Spread` | lib/firebaseClientMock.js:169 | definition: the own fields `{...v}` copies, none for a value that is not an object |
| `JsValues.MergeField` | lib/firebaseClientMock.js:169 | in `{...existing, ...data}` a field present in `data` takes `data`'s value and every other field reads as in `existing` |
| `JsValues.Field` | lib/firebaseClientMock.js:115 | definition: `obj.key`, with a missing field reading as `undefined`; `MergeField` and `NoSessionReadsIdlessAccount` state what reads through it give |
| `JsValues.Falsy` | lib/firebaseClientMock.js:111 | definition: the falsy values among the modelled ones (`undefined`, `null`, `false`, `0`, `''`) |
| `JsValues.Render` | lib/firebaseClientMock.js:186 | definition: `String(v)`, the text a value becomes when concatenated to a string; numbers go through `Decimal` and `Digit`, arrays through `JoinCommas` |
| `JsValues.StartsWith` | lib/firebaseClientMock.js:163 | definition of `path.startsWith(prefix)`, also used for `orders/` at line 196 |
| `JsValues.SecondSegment` | lib/firebaseClientMock.js:164 | definition: `path.split('/')[1]` for a path under the prefix; `SecondSegmentOfJoin` gives its value on `prefix + id` |
| `JsValues.OrEmpty` | lib/firebaseClientMock.js:186 | `uid` or the empty string: a falsy value gives the empty string, and a string gives itself |
| `JsValues.UpToSlash` | lib/firebaseClientMock.js:164 | the segment is a prefix of the rest of the path with no '/', and it stops at the first '/' |
| `JsValues.SecondSegmentOfJoin` | lib/firebaseClientMock.js:164 | `('users/' + id).split('/')[1]` is `id` when `id` has no '/' |
| `FirebaseModel.KeyIndex` | lib/firebaseClientMock.js:89 | the position of the entry with that key is the first such, or -1 exactly when there is none |
| `FirebaseModel.MapHas` | lib/firebaseClientMock.js:89 | `map.has(email)` holds exactly when some entry has that key |
| `FirebaseModel.MapGet` | lib/firebaseClientMock.js:110 | `map.get(email)` is defined exactly when the key is present, and then it is that entry's value |
| `FirebaseModel.UserIndexById` | lib/firebaseClientMock.js:166 | finds the first account whose `id` equals the given id, or -1 when none does |
| `FirebaseModel.RecordById` | lib/firebaseClientMock.js:198 | the found record is in the list and carries the id; none is found only when no record carries it |
| `FirebaseModel.CurrentUid` | lib/firebaseClientMock.js:186-187 | definition of `currentUser?.uid`: the session's uid, or `undefined` with no session |
| `FirebaseModel.ProductsValue` | lib/firebaseClientMock.js:190-192 | definition of the array `get('products')` returns: one object per stored product, in order |
| `FirebaseModel.AuthError.Message` | lib/firebaseClientMock.js:89-117 | definition of the three thrown messages: "Email already in use", "User not found", "Wrong password" |
| `FirebaseModel.ProfileTarget` | lib/firebaseClientMock.js:163-168 | a profile write has a target exactly when the path is under `users/`, a session exists whose uid is the path's second segment, and the first account carrying that `id` has a non-empty email; the target is that account's email |
| `FirebaseModel.MapSet` | lib/firebaseClientMock.js:95 | definition of `map.set`: replace in place or append; characterised by `MapSetSemantics` |
| `FirebaseModel.FromEntries` | lib/firebaseClientMock.js:24 | definition of `new Map(entries)`; characterised by `FromEntriesOfDistinct` and `FromEntriesDistinct` |
| `FirebaseModel.GenerateId` | lib/firebaseClientMock.js:5 | definition: the prefix, `_`, and the random suffix passed in |
| `FirebaseModel.NewAccount` | lib/firebaseClientMock.js:94 | definition of the stored account `{id, password, email, name: '', phone: ''}` |
| `FirebaseModel.SignUp` | lib/firebaseClientMock.js:86-105 | definition of sign-up on the state; characterised by `SignUpDuplicate`, `SignUpFresh` and `SessionNamesAnAccount` |
| `FirebaseModel.SignIn` | lib/firebaseClientMock.js:107-128 | definition of sign-in on the state; characterised by `SignInUnknown`, `SignInWrongPassword` and `SignInSuccess` |
| `FirebaseModel.SignOut` | lib/firebaseClientMock.js:130-139 | definition: the session becomes null and nothing else changes |
| `FirebaseModel.SetPath` | lib/firebaseClientMock.js:159-182 | definition of `set` on the state; characterised by `ProfileWriteMerges`, `ProfileWriteNeedsOwnSession`, `ChatRoundTrip`, `OrderWriteDropped` and `SetKeepsOtherCollections` |
| `FirebaseModel.SetSaves` | lib/firebaseClientMock.js:163-179 | definition: `set` saves exactly when the profile branch or the chat branch applied |
| `FirebaseModel.GetPath` | lib/firebaseClientMock.js:184-202 | definition of `get` on the state; characterised by `ProfileReadIsSelfOnly`, `UsersPathFallsThrough`, `ChatRoundTrip`, `PushThenReadProducts` and `UnknownPathReadsNull` |
| `FirebaseModel.OnValue` | lib/firebaseClientMock.js:204-213 | definition of the snapshot `on` hands over; characterised by `OnMatchesGetForProducts` |
| `FirebaseModel.Push` | lib/firebaseClientMock.js:215-220 | definition of `push` on the state; characterised by `PushAppends` and `PushedKeyIsFound` |
| `FirebaseModel.Save` | lib/firebaseClientMock.js:56-77 | definition of `saveToStorage`; characterised by `SaveWritesFiveKeys` |
| `FirebaseModel.Load` | lib/firebaseClientMock.js:16-53 | definition of `loadFromStorage`; characterised by `LoadRestoresSaved` and `LoadMissingKeys` |
| `FirebaseProperties.MapSetSemantics` | lib/firebaseClientMock.js:95 | `set` then `get` of the key gives the value and other keys are unaffected; it replaces in place or appends one entry, and keeps keys distinct |
| `FirebaseProperties.FromEntriesOfDistinct` | lib/firebaseClientMock.js:24 | `new Map(entries)` of a Map's own entries is that Map |
| `FirebaseProperties.FromEntriesDistinct` | lib/firebaseClientMock.js:24 | whatever is stored, the Map rebuilt from it has distinct keys |
| `FirebaseProperties.SaveWritesFiveKeys` | lib/firebaseClientMock.js:56-77 | saving writes the five `marketplace_*` keys with the state's collections and leaves every other key alone |
| `FirebaseProperties.LoadRestoresSaved` | lib/firebaseClientMock.js:16-53 | loading what was saved restores the whole state, session included |
| `FirebaseProperties.LoadMissingKeys` | lib/firebaseClientMock.js:16-53 | a missing key leaves its collection at the initial empty value; an empty storage loads the initial state |
| `FirebaseProperties.SignUpDuplicate` | lib/firebaseClientMock.js:89-91 | signing up with an email in use fails with "Email already in use" and changes nothing |
| `FirebaseProperties.SignUpFresh` | lib/firebaseClientMock.js:93-104 | a fresh sign-up stores `{id, password, email, name: '', phone: ''}` under the email, adds exactly one account, leaves the others, and makes it the session |
| `FirebaseProperties.SignInUnknown` | lib/firebaseClientMock.js:110-113 | an unknown email fails with "User not found" and changes nothing |
| `FirebaseProperties.SignInWrongPassword` | lib/firebaseClientMock.js:115-117 | a stored password that differs fails with "Wrong password" and changes nothing |
| `FirebaseProperties.SignInSuccess` | lib/firebaseClientMock.js:119-127 | a successful sign-in needs the stored account and its password; the session is `{uid: account.id, email}` and nothing else changes |
| `FirebaseProperties.SignUpThenSignIn` | lib/firebaseClientMock.js:86-128 | signing up and then signing in with the same credentials succeeds with the signed-up id |
| `FirebaseProperties.SessionNamesAnAccount` | lib/firebaseClientMock.js:86-128 | every session a successful sign-up or sign-in starts carries the id of the account stored under its email |
| `FirebaseProperties.SetKeepsOtherCollections` | lib/firebaseClientMock.js:159-182 | no `set` changes the products, the orders or the session |
| `FirebaseProperties.ProfileWriteMerges` | lib/firebaseClientMock.js:163-173 | a profile write replaces the account by `{...existing, ...data}`: fields of `data` win, the others are kept, and no other account changes |
| `FirebaseProperties.ProfileWriteNeedsOwnSession` | lib/firebaseClientMock.js:163-165 | without a session, or on another user's path, a profile write changes nothing |
| `FirebaseProperties.ChatRoundTrip` | lib/firebaseClientMock.js:176-195 | after `set('chatbot/history', t)` a read of that path returns `t` |
| `FirebaseProperties.UnknownPathSetIsDropped` | lib/firebaseClientMock.js:159-182 | a `set` on a path outside `users/` and the chat path changes nothing and saves nothing |
| `FirebaseProperties.OrderWriteDropped` | lib/firebaseClientMock.js:159-200 | a `set` on `orders/<id>` changes nothing and saves nothing, so a read of that path finds what was there before |
| `FirebaseProperties.ProfileReadIsSelfOnly` | lib/firebaseClientMock.js:186-189 | a read of `users/X` returns a profile only when X is `currentUser?.uid` or the empty string, and the profile's `id` is that uid; for a non-empty X that means a session with that uid, but for X empty it includes having no session |
| `FirebaseProperties.NoSessionReadsIdlessAccount` | lib/firebaseClientMock.js:186-187 | with no session, a read of `users/` returns the first account whose `id` reads as undefined, and null when there is none |
| `FirebaseProperties.IdlessAccountIsReadable` | lib/firebaseClientMock.js:186-188 | a signed-out state holding one account without an `id` reads that account at `users/` |
| `FirebaseProperties.ProfileWriteStep` | lib/firebaseClientMock.js:163-173 | when the profile branch applies, `set` is exactly the merge into that account, the chat branch does not apply, and the Map keeps distinct keys |
| `FirebaseProperties.UsersPathFallsThrough` | lib/firebaseClientMock.js:186-201 | a `users/` path that is not the session's own reads as null |
| `FirebaseProperties.ProfileWriteThenRead` | lib/firebaseClientMock.js:163-189 | writing fields to one's own profile and reading it back gives the old account merged with those fields, when the written fields keep the account's `id`; this holds for an empty uid too |
| `FirebaseProperties.UnknownPathReadsNull` | lib/firebaseClientMock.js:184-202 | reading a path that is neither `products` nor the chat path, and not under `users/` or `orders/`, gives null |
| `FirebaseProperties.PushAppends` | lib/firebaseClientMock.js:215-220 | `push` appends exactly one record `{...data, id: key}` after the existing products and changes nothing else |
| `FirebaseProperties.PushedKeyIsFound` | lib/firebaseClientMock.js:215-220 | with a fresh key, a lookup by that key finds exactly the pushed record |
| `FirebaseProperties.PushThenReadProducts` | lib/firebaseClientMock.js:190-192 | reading `products` after a push gives one more entry, and the last entry is the pushed record |
| `FirebaseProperties.OrdersOnlyFromStorage` | lib/firebaseClientMock.js:86-220 | no auth or database operation changes the orders |
| `FirebaseProperties.OnMatchesGetForProducts` | lib/firebaseClientMock.js:204-213 | `on` delivers what a read delivers for `products`, and null for any other path |
| `FirebaseMock.Broadcast` | lib/firebaseClientMock.js:102 | `forEach(cb => cb(session))` makes one invocation per listener, in registration order, each with the session |
| `FirebaseMock.Without` | lib/firebaseClientMock.js:150 | definition of the filter by callback identity; characterised by `WithoutMembership` and `WithoutConcat` |
| `FirebaseMock.WithoutMembership` | lib/firebaseClientMock.js:150 | unsubscribing removes every registration of that callback and keeps every other one |
| `FirebaseMock.WithoutConcat` | lib/firebaseClientMock.js:150 | unsubscribing keeps the other registrations in order |
| `FirebaseMock.Backend.Init` | lib/firebaseClientMock.js:8-53 | start-up state is the initial values overlaid by what storage holds; no listener is registered |
| `FirebaseMock.Backend.SaveToStorage` | lib/firebaseClientMock.js:56-77 | storage holds the current state afterwards; nothing is written without a window |
| `FirebaseMock.Backend.NotifyAll` | lib/firebaseClientMock.js:102 | the loop invokes every registered listener once, in order, with the session |
| `FirebaseMock.Backend.CreateUserWithEmailAndPassword` | lib/firebaseClientMock.js:86-105 | the new state and result are `SignUp` with id `user_<suffix>`; on success storage is flushed and every listener gets the session; on failure nothing is saved or notified |
| `FirebaseMock.Backend.SignInWithEmailAndPassword` | lib/firebaseClientMock.js:107-128 | the new state and result are `SignIn`; on success storage is flushed and every listener is notified; on failure nothing is saved or notified |
| `FirebaseMock.Backend.SignOut` | lib/firebaseClientMock.js:130-139 | the session is cleared, storage is flushed, and every listener gets null |
| `FirebaseMock.Backend.OnAuthStateChanged` | lib/firebaseClientMock.js:141-147 | the callback is registered last and invoked at once with the current session |
| `FirebaseMock.Backend.Unsubscribe` | lib/firebaseClientMock.js:149-151 | the callback is no longer registered; every other registration remains |
| `FirebaseMock.Backend.Set` | lib/firebaseClientMock.js:159-182 | the new state is `SetPath`; storage is flushed exactly when a branch applied |
| `FirebaseMock.Backend.Get` | lib/firebaseClientMock.js:184-202 | the value read is `GetPath` of the current state |
| `FirebaseMock.Backend.On` | lib/firebaseClientMock.js:204-213 | the snapshot delivered is the products for `products`, and null otherwise |
| `FirebaseMock.Backend.Push` | lib/firebaseClientMock.js:215-220 | the key is `prod_<suffix>`; the record with that key is appended and storage is flushed |
| `FirebaseMock.ListenerReplay` | lib/firebaseClientMock.js:141-147 | a listener registered after a sign-up is called once at once with the existing session, after the earlier listeners were notified |
| `FirebaseMock.RestartAfterPush` | lib/firebaseClientMock.js:215-220 | after a push, a fresh start from the same storage finds the same state |
| `SupabaseMock.NewUserId` | lib/supabaseClientMock.js:20 | definition: `user_` followed by the random suffix passed in |
| `SupabaseMock.SupabaseAuth.constructor` | lib/supabaseClientMock.js:4-5 | no users and no session at start |
| `SupabaseMock.SupabaseAuth.SignUp` | lib/supabaseClientMock.js:9-30 | a duplicate email fails with "User already exists" and changes nothing; otherwise exactly one user `user_<suffix>` is added and signed in |
| `SupabaseMock.SupabaseAuth.SignInWithPassword` | lib/supabaseClientMock.js:32-61 | an unknown email or a wrong password fails with "Invalid credentials" and keeps the session; otherwise the stored user becomes the session |
| `SupabaseMock.SupabaseAuth.SignOut` | lib/supabaseClientMock.js:63-66 | no session afterwards |
| `SupabaseMock.SupabaseAuth.GetSession` | lib/supabaseClientMock.js:68-74 | the session is null exactly when nobody is signed in, and otherwise wraps the current user |
| `SupabaseMock.SupabaseAuth.GetUser` | lib/supabaseClientMock.js:76-85 | the current user, or the fixed demo user `mock-user-id` / `demo@example.com` |
| `SupabaseMock.SupabaseAuth.OnAuthStateChange` | lib/supabaseClientMock.js:87-96 | registering a listener changes no state |
| `SupabaseMock.SupabaseAuth.Unsubscribe` | lib/supabaseClientMock.js:92 | unsubscribing changes nothing |
| `SupabaseMock.SignUpThenSignIn` | lib/supabaseClientMock.js:9-61 | signing up and then signing in with the same credentials gives the signed-up user back |
| `SupabaseMock.FailuresLookAlike` | lib/supabaseClientMock.js:36-49 | a wrong password and an unknown email give the same error and keep the session |
| `Chatbot.ToLower` | components/Chatbot.js:32 | lower-casing keeps the length and lower-cases every character (`LowerChar`, ASCII letters only) |
| `Chatbot.Includes` | components/Chatbot.js:34-51 | definition of `s.includes(word)`: the word occurs at some position |
| `Chatbot.Reply` | components/Chatbot.js:31-53 | the reply is one of the seven fixed answers |
| `Chatbot.SameReplyUpToCase` | components/Chatbot.js:32 | messages that differ only in letter case get the same reply |
| `Chatbot.ReplyOfLowered` | components/Chatbot.js:32 | lower-casing a message first does not change its reply |
| `Chatbot.ShippingContainsHi` | components/Chatbot.js:34-48 | any message containing "shipping" contains "hi" |
| `Chatbot.ShippingReplyUnreachable` | components/Chatbot.js:46-48 | no message gets the shipping answer, because the greeting rule fires first |
| `Chatbot.GreetingWins` | components/Chatbot.js:34-36 | a message containing "hi", "hello" or "hey" gets the greeting, whatever else it contains |
| `Chatbot.BuyBeforeSell` | components/Chatbot.js:37-42 | with no greeting word, "buy" wins over "sell" |
| `Chatbot.NoKeywordDefault` | components/Chatbot.js:52 | a message with none of the keywords gets the default answer |
| `Chatbot.IsBlank` | components/Chatbot.js:56 | definition of `!input.trim()`: every character is JavaScript white space or a line terminator (`IsJsWhitespace`) |
| `Chatbot.MessageValue` | components/Chatbot.js:60-65 | definition of a transcript entry `{id, text, sender, timestamp}` |
| `Chatbot.ChatWidget.constructor` | components/Chatbot.js:6-7 | the widget starts with no messages and an empty input |
| `Chatbot.ChatWidget.LoadChatHistory` | components/Chatbot.js:19-29 | the stored transcript is adopted when it is an array; otherwise the messages stay as they were |
| `Chatbot.ChatWidget.HandleSend` | components/Chatbot.js:55-89 | blank input changes nothing; otherwise the user's message and the reply to it are appended, the input is cleared, the transcript is saved, read back whole and flushed to storage, and no listener or other collection changes |
| `Checkout.LineItemValue` | pages/cart.js:43 | definition of a cart line as the order stores it |
| `Checkout.LineItemKeepsProductFields` | lib/cartStore.js:27-30 | an order line carries the product's id, the quantity, and every other field of the product |
| `Checkout.OrderValue` | pages/cart.js:41-48 | definition of the order `{id, userId, items, total, status: 'completed', createdAt}` |
| `Checkout.HandleCheckout` | pages/cart.js:26-68 | without a session or with an empty cart nothing happens; otherwise the order carries `order_<now>`, the uid, the items and the store's total; the database, its storage and its listeners are unchanged and the cart is cleared |

## Left out

- **Async and exceptions.** The simulated latency (`setTimeout` delays) and the
  async/await shape are not modelled; each call is one atomic step. Thrown
  errors are `Failure` results. The `try/catch` around storage and around
  JSON parsing is not modelled; storage always succeeds.
- **Storage format.** Local storage holds a stored value, not JSON text. A
  key holding a value of the wrong shape reads as if absent. Corrupt JSON is
  not modelled.
- FirebaseProperties.LoadRestoresSaved: matches the source only for states free of `undefined`, because values JSON cannot encode are stored as they are. JSON would drop an `undefined` field and turn an `undefined` array element into `null`. A transcript set to `undefined` would be stored as the text `undefined`, and the next start-up would fail to parse it and skip the rest of the load, session included. None of this is modelled.
- Checkout.HandleCheckout, Checkout.LineItemValue and CartStore.Product: a product's id, name and price are typed (a string, a string and integer cents). Every other field of the product travels as one record (`details`) that a cart line and an order line copy along. A product whose id or name is not a string, or whose price is not a number, is not modelled.
- **Prices** are integer cents. `parseFloat` and floating-point rounding are
  not modelled, and neither is a `NaN` quantity from `parseInt` on the cart
  page.
- **Lower-casing** covers ASCII letters only.
- **Callback bodies.** The listener callbacks' own effects are not modelled.
  Each invocation is recorded with its argument.
- **`mockAuth.currentUser` field.** Sign-up, sign-in and sign-out assign it
  (lines 97, 120 and 133). It starts as null and stays null after start-up
  even when a stored session is loaded. No file of the program reads it, and
  it is not modelled.
- **Spread of non-objects.** Spreading a string or an array, which in
  JavaScript copies index keys, is modelled as copying nothing.
- **Value identity.** JavaScript reference identity of records is modelled as
  value equality.
- **Other stubs.** The Firebase storage stub (`putFile`, `putString`,
  `getDownloadURL`), the Supabase `from(...)` query stubs and the Supabase
  storage stubs return fixed values and are not part of this model.
- **UI state.** React rendering, the loading flags, scrolling and the
  `isOpen` toggle are not part of this model. In `HandleSend` the
  intermediate `setMessages` is subsumed by the final one.
- **The real clients.** `lib/firebaseClient.js` and `lib/supabaseClient.js`,
  which choose between the real services and these emulations, are not part
  of this model.
- **Page cart state.** The page's cart state in `pages/cart.js` is a
  parameter of `Checkout.HandleCheckout` (`items`). It is not tied to the
  stored cart.
