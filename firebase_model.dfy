/**
 * The state of the emulated Firebase backend and its transitions, as pure
 * functions: the account map, the products, the orders, the chat transcript
 * and the current session, how each auth and database operation changes
 * them, and how they are written to and read back from local storage.
 */
module FirebaseModel {
  import opened Base
  import opened JsValues

  // ---------------------------------------------------------------------
  // The account map: a JavaScript Map from email to account record, kept as
  // its entries in insertion order.

  type Entries = seq<(string, Record)>

  /** A Map never holds two entries with the same key. */
  ghost predicate DistinctKeys(es: Entries) {
    forall i, j :: 0 <= i < j < |es| ==> es[i].0 != es[j].0
  }

  ghost predicate HasKey(es: Entries, key: string) {
    exists i :: 0 <= i < |es| && es[i].0 == key
  }

  /** The position of the entry with that key, or -1. */
  function KeyIndex(es: Entries, key: string): (i: int)
    ensures -1 <= i < |es|
    ensures i >= 0 ==> es[i].0 == key && forall j :: 0 <= j < i ==> es[j].0 != key
    ensures i == -1 <==> !HasKey(es, key)
  {
    if es == [] then -1
    else if es[0].0 == key then 0
    else
      var i := KeyIndex(es[1..], key);
      assert i >= 0 ==> es[i + 1] == es[1..][i];
      assert i == -1 ==> forall j :: 1 <= j < |es| ==> es[j] == es[1..][j - 1];
      if i == -1 then -1 else i + 1
  }

  /** `map.has(key)`. */
  function MapHas(es: Entries, key: string): (b: bool)
    ensures b <==> HasKey(es, key)
  {
    KeyIndex(es, key) >= 0
  }

  /** `map.get(key)`: absent keys read as nothing. */
  function MapGet(es: Entries, key: string): (r: Option<Record>)
    ensures r.Some? <==> HasKey(es, key)
    ensures r.Some? ==> exists i :: 0 <= i < |es| && es[i] == (key, r.value)
  {
    var i := KeyIndex(es, key);
    if i < 0 then None else Some(es[i].1)
  }

  /** `map.set(key, value)`: replaces the value in place, or appends a new entry. */
  function MapSet(es: Entries, key: string, value: Record): Entries {
    var i := KeyIndex(es, key);
    if i < 0 then es + [(key, value)] else es[i := (key, value)]
  }

  /** `new Map(entries)`: later duplicates overwrite earlier ones in place. */
  function FromEntries(es: Entries): Entries {
    if es == [] then [] else MapSet(FromEntries(es[..|es| - 1]), es[|es| - 1].0, es[|es| - 1].1)
  }

  /** The email and record of the first account whose `id` field is `id`, or -1. */
  function UserIndexById(es: Entries, id: Value): (i: int)
    ensures -1 <= i < |es|
    ensures i >= 0 ==> Field(es[i].1, "id") == id && forall j :: 0 <= j < i ==> Field(es[j].1, "id") != id
    ensures i == -1 ==> forall j :: 0 <= j < |es| ==> Field(es[j].1, "id") != id
  {
    if es == [] then -1
    else if Field(es[0].1, "id") == id then 0
    else
      var i := UserIndexById(es[1..], id);
      assert i >= 0 ==> es[i + 1] == es[1..][i];
      assert i == -1 ==> forall j :: 1 <= j < |es| ==> es[j] == es[1..][j - 1];
      if i == -1 then -1 else i + 1
  }

  /** `records.find(r => r.id === id)`: the first record carrying the id. */
  function RecordById(rs: seq<Record>, id: Value): (r: Option<Record>)
    ensures r.Some? ==> Field(r.value, "id") == id
    ensures r.Some? ==>
              exists i :: 0 <= i < |rs| && rs[i] == r.value && forall j :: 0 <= j < i ==> Field(rs[j], "id") != id
    ensures r.None? ==> forall x :: x in rs ==> Field(x, "id") != id
  {
    if rs == [] then None
    else if Field(rs[0], "id") == id then Some(rs[0])
    else
      assert forall x :: x in rs ==> x == rs[0] || x in rs[1..];
      var r := RecordById(rs[1..], id);
      assert r.Some? ==>
               exists i :: 0 <= i < |rs| && rs[i] == r.value && forall j :: 0 <= j < i ==> Field(rs[j], "id") != id
      by {
        if r.Some? {
          var i :| 0 <= i < |rs[1..]| && rs[1..][i] == r.value &&
                   forall j :: 0 <= j < i ==> Field(rs[1..][j], "id") != id;
          forall j | 0 <= j < i + 1 ensures Field(rs[j], "id") != id {
            if j > 0 {
              assert rs[j] == rs[1..][j - 1];
            }
          }
          assert rs[i + 1] == r.value;
        }
      }
      r
  }

  // ---------------------------------------------------------------------
  // Module state

  /** The signed-in user: `{uid, email}`. */
  datatype Session = Session(uid: Value, email: string)

  datatype AuthError = EmailAlreadyInUse | UserNotFound | WrongPassword {
    /** The message of the thrown `Error`. */
    function Message(): string {
      match this
      case EmailAlreadyInUse => "Email already in use"
      case UserNotFound => "User not found"
      case WrongPassword => "Wrong password"
    }
  }

  /** `mockUsers`, `mockProducts`, `mockOrders`, `mockChatHistory` and `currentUser`. */
  datatype MockState = MockState(
    users: Entries,
    products: seq<Record>,
    orders: seq<Record>,
    chatHistory: Value,
    currentUser: Option<Session>)

  /** The module's initial values, before anything is loaded. */
  const Initial := MockState([], [], [], List([]), None)

  /** `currentUser?.uid`. */
  function CurrentUid(s: MockState): Value {
    if s.currentUser.Some? then s.currentUser.value.uid else Undefined
  }

  /** `generateId(prefix)`: the prefix, '_' and a random base-36 suffix (passed in). */
  function GenerateId(prefix: string, suffix: string): string {
    prefix + "_" + suffix
  }

  /** The record sign-up stores: `{id, password, email, name: '', phone: ''}`. */
  function NewAccount(id: string, password: string, email: string): Record {
    map["id" := Str(id), "password" := Str(password), "email" := Str(email), "name" := Str(""), "phone" := Str("")]
  }

  // ---------------------------------------------------------------------
  // Auth transitions

  /** `createUserWithEmailAndPassword` with `newId` the generated user id. */
  function SignUp(s: MockState, email: string, password: string, newId: string): (MockState, Result<Session, AuthError>) {
    if MapHas(s.users, email) then (s, Failure(EmailAlreadyInUse))
    else
      var session := Session(Str(newId), email);
      (s.(users := MapSet(s.users, email, NewAccount(newId, password, email)), currentUser := Some(session)),
       Success(session))
  }

  /** `signInWithEmailAndPassword`. */
  function SignIn(s: MockState, email: string, password: string): (MockState, Result<Session, AuthError>) {
    match MapGet(s.users, email)
    case None => (s, Failure(UserNotFound))
    case Some(account) =>
      if Field(account, "password") != Str(password) then (s, Failure(WrongPassword))
      else
        var session := Session(Field(account, "id"), email);
        (s.(currentUser := Some(session)), Success(session))
  }

  /** `signOut`. */
  function SignOut(s: MockState): MockState {
    s.(currentUser := None)
  }

  // ---------------------------------------------------------------------
  // Database paths

  const UsersPrefix := "users/"
  const OrdersPrefix := "orders/"
  const ProductsPath := "products"
  const ChatPath := "chatbot/history"

  /**
   * The email of the account a `set` on `path` updates: the path must start
   * with `users/`, a session must exist, the path's second segment must be the
   * session's uid, and some account must carry that id under a non-empty email.
   */
  function ProfileTarget(s: MockState, path: string): (r: Option<string>)
    ensures r.Some? ==> HasKey(s.users, r.value) && r.value != ""
    ensures r.Some? <==>
              StartsWith(path, UsersPrefix) && s.currentUser.Some? &&
              s.currentUser.value.uid == Str(SecondSegment(path, UsersPrefix)) &&
              UserIndexById(s.users, s.currentUser.value.uid) >= 0 &&
              s.users[UserIndexById(s.users, s.currentUser.value.uid)].0 != ""
    ensures r.Some? ==> r.value == s.users[UserIndexById(s.users, s.currentUser.value.uid)].0
  {
    if StartsWith(path, UsersPrefix) && s.currentUser.Some? then
      var userId := SecondSegment(path, UsersPrefix);
      if Str(userId) == s.currentUser.value.uid then
        var i := UserIndexById(s.users, Str(userId));
        if i >= 0 && s.users[i].0 != "" then Some(s.users[i].0) else None
      else None
    else None
  }

  /** `ref(path).set(data)`. */
  function SetPath(s: MockState, path: string, data: Value): MockState {
    var s1 :=
      match ProfileTarget(s, path)
      case None => s
      case Some(email) => s.(users := MapSet(s.users, email, MapGet(s.users, email).value + Spread(data)));
    if path == ChatPath then s1.(chatHistory := data) else s1
  }

  /** Whether `ref(path).set(data)` ends with a save to storage. */
  function SetSaves(s: MockState, path: string): bool {
    ProfileTarget(s, path).Some? || path == ChatPath
  }

  /** The products collection as the array a read returns. */
  function ProductsValue(products: seq<Record>): Value {
    List(seq(|products|, i requires 0 <= i < |products| => Object(products[i])))
  }

  /** `ref(path).get().val()`. */
  function GetPath(s: MockState, path: string): Value {
    var uid := CurrentUid(s);
    if path == UsersPrefix + OrEmpty(uid) then
      var i := UserIndexById(s.users, uid);
      if i >= 0 then Object(s.users[i].1) else Null
    else if path == ProductsPath then ProductsValue(s.products)
    else if path == ChatPath then s.chatHistory
    else if StartsWith(path, OrdersPrefix) then
      match RecordById(s.orders, Str(SecondSegment(path, OrdersPrefix)))
      case Some(order) => Object(order)
      case None => Null
    else Null
  }

  /** The value `ref(path).on(event, callback)` hands to its callback. */
  function OnValue(s: MockState, path: string): Value {
    if path == ProductsPath then ProductsValue(s.products) else Null
  }

  /** `ref(path).push(data)` with `key` the generated key: the path is not consulted. */
  function Push(s: MockState, data: Value, key: string): MockState {
    s.(products := s.products + [Spread(data)["id" := Str(key)]])
  }

  // ---------------------------------------------------------------------
  // Local storage

  const UsersKey := "marketplace_users"
  const ProductsKey := "marketplace_products"
  const OrdersKey := "marketplace_orders"
  const ChatKey := "marketplace_chatbot"
  const SessionKey := "marketplace_currentUser"

  /** What one storage key holds (the JSON text, abstracted to the value it encodes). */
  datatype Snapshot =
    | UserTable(entries: Entries)
    | RecordList(records: seq<Record>)
    | Document(value: Value)
    | SessionSlot(session: Option<Session>)

  type Medium = map<string, Snapshot>

  /** `saveToStorage`: writes the five keys; every other key is left alone. */
  function Save(m: Medium, s: MockState): Medium {
    m[UsersKey := UserTable(s.users)]
     [ProductsKey := RecordList(s.products)]
     [OrdersKey := RecordList(s.orders)]
     [ChatKey := Document(s.chatHistory)]
     [SessionKey := SessionSlot(s.currentUser)]
  }

  /** The five keys hold exactly the collections of `s`. */
  ghost predicate SavedIn(m: Medium, s: MockState) {
    && UsersKey in m && m[UsersKey] == UserTable(s.users)
    && ProductsKey in m && m[ProductsKey] == RecordList(s.products)
    && OrdersKey in m && m[OrdersKey] == RecordList(s.orders)
    && ChatKey in m && m[ChatKey] == Document(s.chatHistory)
    && SessionKey in m && m[SessionKey] == SessionSlot(s.currentUser)
  }

  /** `loadFromStorage` at start-up: a missing key leaves its collection at the initial value. */
  function Load(m: Medium): MockState {
    MockState(
      if UsersKey in m && m[UsersKey].UserTable? then FromEntries(m[UsersKey].entries) else Initial.users,
      if ProductsKey in m && m[ProductsKey].RecordList? then m[ProductsKey].records else Initial.products,
      if OrdersKey in m && m[OrdersKey].RecordList? then m[OrdersKey].records else Initial.orders,
      if ChatKey in m && m[ChatKey].Document? then m[ChatKey].value else Initial.chatHistory,
      if SessionKey in m && m[SessionKey].SessionSlot? then m[SessionKey].session else Initial.currentUser)
  }
}
