/**
 * The emulated Firebase backend as the object it is: module-level state that
 * every auth and database call updates in place, a registry of auth
 * listeners notified in registration order, and the local-storage medium
 * that every mutation is flushed to.
 */
module FirebaseMock {
  import opened Base
  import opened JsValues
  import opened FirebaseModel
  import opened FirebaseProperties

  /** The identity of a registered auth callback (callbacks are compared by identity). */
  type Listener = nat

  /** One invocation `callback(session)`. */
  datatype Delivery = Delivery(listener: Listener, session: Option<Session>)

  /** The invocations `listeners.forEach(cb => cb(session))` makes, in order. */
  function Broadcast(listeners: seq<Listener>, session: Option<Session>): (r: seq<Delivery>)
    ensures |r| == |listeners|
    ensures forall i :: 0 <= i < |r| ==> r[i] == Delivery(listeners[i], session)
  {
    if listeners == [] then [] else Broadcast(listeners[..|listeners| - 1], session) + [Delivery(listeners[|listeners| - 1], session)]
  }

  /** `listeners.filter(cb => cb !== callback)`. */
  function Without(listeners: seq<Listener>, callback: Listener): seq<Listener> {
    if listeners == [] then []
    else (if listeners[0] == callback then [] else [listeners[0]]) + Without(listeners[1..], callback)
  }

  /** Unsubscribing removes every registration of the callback and keeps every other one. */
  lemma {:induction false} WithoutMembership(listeners: seq<Listener>, callback: Listener, l: Listener)
    ensures l in Without(listeners, callback) <==> l in listeners && l != callback
  {
    if listeners != [] {
      WithoutMembership(listeners[1..], callback, l);
      assert listeners == [listeners[0]] + listeners[1..];
    }
  }

  /** Unsubscribing keeps the other registrations in their order: it distributes over concatenation. */
  lemma {:induction false} WithoutConcat(a: seq<Listener>, b: seq<Listener>, callback: Listener)
    ensures Without(a + b, callback) == Without(a, callback) + Without(b, callback)
  {
    if a != [] {
      assert (a + b)[1..] == a[1..] + b;
      WithoutConcat(a[1..], b, callback);
    } else {
      assert a + b == b;
    }
  }

  class Backend {
    var users: Entries
    var products: seq<Record>
    var orders: seq<Record>
    var chatHistory: Value
    var currentUser: Option<Session>
    var authCallbacks: seq<Listener>
    /** Every callback invocation made so far, oldest first. */
    var delivered: seq<Delivery>
    /** Local storage. */
    var storage: Medium
    /** False where no storage medium exists (`typeof window === 'undefined'`). */
    const hasStorage: bool

    function State(): MockState
      reads this
    {
      MockState(users, products, orders, chatHistory, currentUser)
    }

    ghost predicate Valid()
      reads this
    {
      DistinctKeys(users)
    }

    /** Memory and local storage agree. */
    ghost predicate Persisted()
      reads this
    {
      hasStorage ==> SavedIn(storage, State())
    }

    /** The medium after a `saveToStorage` of state `s`. */
    function Flushed(m: Medium, s: MockState): Medium {
      if hasStorage then Save(m, s) else m
    }

    /** Module initialisation: the initial values, then `loadFromStorage`. */
    constructor Init(medium: Medium, hasStorage: bool)
      ensures Valid()
      ensures this.hasStorage == hasStorage && storage == medium
      ensures State() == if hasStorage then Load(medium) else Initial
      ensures authCallbacks == [] && delivered == []
    {
      this.hasStorage := hasStorage;
      storage := medium;
      authCallbacks := [];
      delivered := [];
      var s := if hasStorage then Load(medium) else Initial;
      users, products, orders, chatHistory, currentUser := s.users, s.products, s.orders, s.chatHistory, s.currentUser;
      if hasStorage && UsersKey in medium && medium[UsersKey].UserTable? {
        FromEntriesDistinct(medium[UsersKey].entries);
      }
    }

    /** `saveToStorage`. */
    method SaveToStorage()
      modifies this`storage
      ensures storage == Flushed(old(storage), State())
      ensures Persisted()
    {
      if hasStorage {
        storage := Save(storage, State());
        SaveWritesFiveKeys(old(storage), State());
      }
    }

    /** `authCallbacks.forEach(cb => cb(session))`. */
    method NotifyAll(session: Option<Session>)
      modifies this`delivered
      ensures delivered == old(delivered) + Broadcast(authCallbacks, session)
    {
      var i := 0;
      while i < |authCallbacks|
        invariant 0 <= i <= |authCallbacks|
        invariant delivered == old(delivered) + Broadcast(authCallbacks[..i], session)
      {
        assert authCallbacks[..i + 1][..i] == authCallbacks[..i];
        delivered := delivered + [Delivery(authCallbacks[i], session)];
        i := i + 1;
      }
      assert authCallbacks[..i] == authCallbacks;
    }

    /** `createUserWithEmailAndPassword`, with `suffix` the random part of `generateId('user')`. */
    method CreateUserWithEmailAndPassword(email: string, password: string, suffix: string)
      returns (r: Result<Session, AuthError>)
      requires Valid()
      modifies this
      ensures Valid()
      ensures (State(), r) == SignUp(old(State()), email, password, GenerateId("user", suffix))
      ensures authCallbacks == old(authCallbacks)
      ensures r.Failure? ==> storage == old(storage) && delivered == old(delivered)
      ensures r.Success? ==> Persisted() && storage == Flushed(old(storage), State())
      ensures r.Success? ==> delivered == old(delivered) + Broadcast(authCallbacks, Some(r.value))
    {
      if MapHas(users, email) {
        return Failure(EmailAlreadyInUse);
      }
      var newId := GenerateId("user", suffix);
      MapSetSemantics(users, email, NewAccount(newId, password, email));
      users := MapSet(users, email, NewAccount(newId, password, email));
      currentUser := Some(Session(Str(newId), email));
      SaveToStorage();
      NotifyAll(currentUser);
      r := Success(Session(Str(newId), email));
    }

    /** `signInWithEmailAndPassword`. */
    method SignInWithEmailAndPassword(email: string, password: string)
      returns (r: Result<Session, AuthError>)
      requires Valid()
      modifies this
      ensures Valid()
      ensures (State(), r) == SignIn(old(State()), email, password)
      ensures authCallbacks == old(authCallbacks)
      ensures r.Failure? ==> storage == old(storage) && delivered == old(delivered)
      ensures r.Success? ==> Persisted() && storage == Flushed(old(storage), State())
      ensures r.Success? ==> delivered == old(delivered) + Broadcast(authCallbacks, Some(r.value))
    {
      var user := MapGet(users, email);
      if user.None? {
        return Failure(UserNotFound);
      }
      if Field(user.value, "password") != Str(password) {
        return Failure(WrongPassword);
      }
      currentUser := Some(Session(Field(user.value, "id"), email));
      SaveToStorage();
      NotifyAll(currentUser);
      r := Success(currentUser.value);
    }

    /** `signOut`: always clears the session, saves, and notifies every listener with null. */
    method SignOut()
      requires Valid()
      modifies this
      ensures Valid()
      ensures State() == FirebaseModel.SignOut(old(State()))
      ensures currentUser == None
      ensures Persisted() && storage == Flushed(old(storage), State())
      ensures authCallbacks == old(authCallbacks)
      ensures delivered == old(delivered) + Broadcast(authCallbacks, None)
    {
      currentUser := None;
      SaveToStorage();
      NotifyAll(None);
    }

    /** `onAuthStateChanged(callback)`: registers it and invokes it once with the current session. */
    method OnAuthStateChanged(callback: Listener)
      modifies this`authCallbacks, this`delivered
      ensures authCallbacks == old(authCallbacks) + [callback]
      ensures delivered == old(delivered) + [Delivery(callback, currentUser)]
    {
      authCallbacks := authCallbacks + [callback];
      delivered := delivered + [Delivery(callback, currentUser)];
    }

    /** The unsubscribe function `onAuthStateChanged` returns, called for `callback`. */
    method Unsubscribe(callback: Listener)
      modifies this`authCallbacks
      ensures authCallbacks == Without(old(authCallbacks), callback)
      ensures callback !in authCallbacks
      ensures forall l :: l in old(authCallbacks) && l != callback ==> l in authCallbacks
    {
      authCallbacks := Without(authCallbacks, callback);
      forall l ensures l in authCallbacks <==> l in old(authCallbacks) && l != callback {
        WithoutMembership(old(authCallbacks), callback, l);
      }
    }

    /**
     * `ref(path).set(data)`. `ProfileTarget` is the chain of guards on the
     * profile branch: a `users/` path, a session, a matching uid and a found
     * account email.
     */
    method Set(path: string, data: Value)
      requires Valid()
      modifies this`users, this`chatHistory, this`storage
      ensures Valid()
      ensures State() == SetPath(old(State()), path, data)
      ensures storage == if SetSaves(old(State()), path) then Flushed(old(storage), State()) else old(storage)
      ensures SetSaves(old(State()), path) ==> Persisted()
    {
      var target := ProfileTarget(State(), path);
      if target.Some? {
        var email := target.value;
        ProfileWriteStep(State(), path, data);
        users := MapSet(users, email, MapGet(users, email).value + Spread(data));
        SaveToStorage();
      }
      if path == ChatPath {
        chatHistory := data;
        SaveToStorage();
      }
    }

    /** `ref(path).get().val()`. */
    method Get(path: string) returns (v: Value)
      ensures v == GetPath(State(), path)
    {
      var uid := if currentUser.Some? then currentUser.value.uid else Undefined;
      if path == UsersPrefix + OrEmpty(uid) {
        var i := UserIndexById(users, uid);
        v := if i >= 0 then Object(users[i].1) else Null;
      } else if path == ProductsPath {
        v := ProductsValue(products);
      } else if path == ChatPath {
        v := chatHistory;
      } else if StartsWith(path, OrdersPrefix) {
        var order := RecordById(orders, Str(SecondSegment(path, OrdersPrefix)));
        v := if order.Some? then Object(order.value) else Null;
      } else {
        v := Null;
      }
    }

    /** `ref(path).on(event, callback)`: the single snapshot its callback receives. */
    method On(path: string) returns (v: Value)
      ensures v == OnValue(State(), path)
      ensures path != ProductsPath ==> v == Null
    {
      v := if path == ProductsPath then ProductsValue(products) else Null;
    }

    /**
     * `ref(path).push(data)`, with `suffix` the random part of
     * `generateId('prod')`; `path` is not consulted.
     */
    method Push(path: string, data: Value, suffix: string) returns (key: string)
      requires Valid()
      modifies this`products, this`storage
      ensures Valid()
      ensures key == GenerateId("prod", suffix)
      ensures State() == FirebaseModel.Push(old(State()), data, key)
      ensures Persisted() && storage == Flushed(old(storage), State())
    {
      key := GenerateId("prod", suffix);
      products := products + [Spread(data)["id" := Str(key)]];
      SaveToStorage();
    }
  }

  /**
   * A listener registered while a session is active is invoked once, at
   * once, with that session, although no transition just happened.
   */
  method ListenerReplay(b: Backend, email: string, password: string, suffix: string, late: Listener)
    requires b.Valid() && !HasKey(b.users, email)
    modifies b
    ensures b.currentUser == Some(Session(Str(GenerateId("user", suffix)), email))
    ensures b.authCallbacks == old(b.authCallbacks) + [late]
    ensures b.delivered == old(b.delivered)
                           + Broadcast(old(b.authCallbacks), b.currentUser)
                           + [Delivery(late, b.currentUser)]
  {
    var r := b.CreateUserWithEmailAndPassword(email, password, suffix);
    b.OnAuthStateChanged(late);
  }

  /** A push followed by a restart (a fresh load of the same medium) finds the same state. */
  method RestartAfterPush(b: Backend, data: Value, suffix: string) returns (reloaded: Backend)
    requires b.Valid() && b.hasStorage
    modifies b
    ensures reloaded.State() == b.State()
    ensures b.State() == FirebaseModel.Push(old(b.State()), data, GenerateId("prod", suffix))
  {
    var _ := b.Push("products", data, suffix);
    reloaded := new Backend.Init(b.storage, true);
    LoadRestoresSaved(b.storage, b.State());
  }
}
