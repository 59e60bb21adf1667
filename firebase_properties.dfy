/** Properties of the emulated Firebase backend's transitions and of its persistence. */
module FirebaseProperties {
  import opened Base
  import opened JsValues
  import opened FirebaseModel

  // ---------------------------------------------------------------------
  // The account map behaves as a JavaScript Map

  lemma KeyIndexAgree(es: Entries, es': Entries, key: string)
    requires |es| <= |es'|
    requires forall j :: 0 <= j < |es| ==> es'[j].0 == es[j].0
    requires forall j :: |es| <= j < |es'| ==> es'[j].0 != key
    ensures KeyIndex(es', key) == KeyIndex(es, key)
  {
    var i, i' := KeyIndex(es, key), KeyIndex(es', key);
    if i >= 0 {
      assert es'[i].0 == key;
    }
    if i' >= 0 {
      assert i' < |es|;
      assert es[i'].0 == key;
    }
  }

  /** `set` then `get` on the same key gives the value; other keys are unaffected, and keys stay distinct. */
  lemma MapSetSemantics(es: Entries, key: string, value: Record)
    ensures MapGet(MapSet(es, key, value), key) == Some(value)
    ensures forall other :: other != key ==> MapGet(MapSet(es, key, value), other) == MapGet(es, other)
    ensures |MapSet(es, key, value)| == if HasKey(es, key) then |es| else |es| + 1
    ensures forall j :: 0 <= j < |es| && es[j].0 != key ==> MapSet(es, key, value)[j] == es[j]
    ensures DistinctKeys(es) ==> DistinctKeys(MapSet(es, key, value))
  {
    var r := MapSet(es, key, value);
    var i := KeyIndex(es, key);
    if i >= 0 {
      KeyIndexAgree(es, r, key);
    } else {
      assert r[|es|] == (key, value);
      assert KeyIndex(r, key) == |es|;
    }
    forall other | other != key
      ensures MapGet(r, other) == MapGet(es, other)
    {
      KeyIndexAgree(es, r, other);
    }
  }

  /** `new Map(entries)` of the entries of a Map gives that Map back (what a reload relies on). */
  lemma {:induction false} FromEntriesOfDistinct(es: Entries)
    requires DistinctKeys(es)
    ensures FromEntries(es) == es
  {
    if es != [] {
      var n := |es| - 1;
      var pre := es[..n];
      assert DistinctKeys(pre);
      FromEntriesOfDistinct(pre);
      assert !HasKey(pre, es[n].0);
      assert pre + [(es[n].0, es[n].1)] == es;
    }
  }

  /** Whatever is stored, the Map built from it has distinct keys. */
  lemma {:induction false} FromEntriesDistinct(es: Entries)
    ensures DistinctKeys(FromEntries(es))
  {
    if es != [] {
      FromEntriesDistinct(es[..|es| - 1]);
      MapSetSemantics(FromEntries(es[..|es| - 1]), es[|es| - 1].0, es[|es| - 1].1);
    }
  }

  // ---------------------------------------------------------------------
  // Persistence

  /** Saving writes the five collection keys and leaves every other key alone. */
  lemma SaveWritesFiveKeys(m: Medium, s: MockState)
    ensures SavedIn(Save(m, s), s)
    ensures forall k :: k !in {UsersKey, ProductsKey, OrdersKey, ChatKey, SessionKey} ==>
              (k in Save(m, s) <==> k in m) && (k in m ==> Save(m, s)[k] == m[k])
  {
  }

  /** Loading what was saved restores the state (a process restart loses nothing). */
  lemma LoadRestoresSaved(m: Medium, s: MockState)
    requires SavedIn(m, s) && DistinctKeys(s.users)
    ensures Load(m) == s
  {
    FromEntriesOfDistinct(s.users);
  }

  /** A missing key leaves that collection at its empty default. */
  lemma LoadMissingKeys(m: Medium)
    ensures UsersKey !in m ==> Load(m).users == []
    ensures ProductsKey !in m ==> Load(m).products == []
    ensures OrdersKey !in m ==> Load(m).orders == []
    ensures ChatKey !in m ==> Load(m).chatHistory == List([])
    ensures SessionKey !in m ==> Load(m).currentUser == None
    ensures Load(map[]) == Initial
  {
  }

  // ---------------------------------------------------------------------
  // Auth

  /** Signing up with an email already in use fails and changes nothing. */
  lemma SignUpDuplicate(s: MockState, email: string, password: string, newId: string)
    requires HasKey(s.users, email)
    ensures SignUp(s, email, password, newId) == (s, Failure(EmailAlreadyInUse))
  {
  }

  /**
   * A successful sign-up adds exactly one account under the email, with the
   * new id and empty name and phone, and makes it the session.
   */
  lemma SignUpFresh(s: MockState, email: string, password: string, newId: string)
    requires !HasKey(s.users, email)
    ensures var (s', r) := SignUp(s, email, password, newId);
      && r == Success(Session(Str(newId), email))
      && s'.currentUser == Some(Session(Str(newId), email))
      && MapGet(s'.users, email) == Some(NewAccount(newId, password, email))
      && |s'.users| == |s.users| + 1
      && (forall other :: other != email ==> MapGet(s'.users, other) == MapGet(s.users, other))
      && s'.products == s.products && s'.orders == s.orders && s'.chatHistory == s.chatHistory
  {
    MapSetSemantics(s.users, email, NewAccount(newId, password, email));
  }

  /** An unknown email fails with "User not found" and leaves the state as it was. */
  lemma SignInUnknown(s: MockState, email: string, password: string)
    requires !HasKey(s.users, email)
    ensures SignIn(s, email, password) == (s, Failure(UserNotFound))
  {
  }

  /** A stored password that differs fails with "Wrong password" and leaves the state as it was. */
  lemma SignInWrongPassword(s: MockState, email: string, password: string)
    requires HasKey(s.users, email)
    requires Field(MapGet(s.users, email).value, "password") != Str(password)
    ensures SignIn(s, email, password) == (s, Failure(WrongPassword))
  {
  }

  /** A successful sign-in makes the session the stored account's id; nothing else changes. */
  lemma SignInSuccess(s: MockState, email: string, password: string)
    requires SignIn(s, email, password).1.Success?
    ensures HasKey(s.users, email)
    ensures var account := MapGet(s.users, email).value;
      && Field(account, "password") == Str(password)
      && SignIn(s, email, password).1.value == Session(Field(account, "id"), email)
      && SignIn(s, email, password).0 == s.(currentUser := Some(Session(Field(account, "id"), email)))
  {
  }

  /** Signing up and then signing in with the same credentials yields the same account id. */
  lemma SignUpThenSignIn(s: MockState, email: string, password: string, newId: string)
    requires !HasKey(s.users, email)
    ensures var s1 := SignUp(s, email, password, newId).0;
      SignIn(s1, email, password) == (s1, Success(Session(Str(newId), email)))
  {
    SignUpFresh(s, email, password, newId);
  }

  /** Every session a successful sign-up or sign-in starts is the projection of one stored account. */
  lemma SessionNamesAnAccount(s: MockState, email: string, password: string, newId: string)
    ensures var (s1, r1) := SignUp(s, email, password, newId);
      r1.Success? ==> MapGet(s1.users, email).Some? && Field(MapGet(s1.users, email).value, "id") == r1.value.uid
    ensures var (s2, r2) := SignIn(s, email, password);
      r2.Success? ==> MapGet(s2.users, email).Some? && Field(MapGet(s2.users, email).value, "id") == r2.value.uid
  {
    if !HasKey(s.users, email) {
      SignUpFresh(s, email, password, newId);
    }
  }

  // ---------------------------------------------------------------------
  // Database

  /** No `set` touches the products, the orders or the session. */
  lemma SetKeepsOtherCollections(s: MockState, path: string, data: Value)
    ensures SetPath(s, path, data).products == s.products
    ensures SetPath(s, path, data).orders == s.orders
    ensures SetPath(s, path, data).currentUser == s.currentUser
  {
  }

  /**
   * A profile write on the signed-in user's own path replaces that account
   * by the old account merged with `data`: fields of `data` win, the others
   * are kept. No other account changes.
   */
  lemma ProfileWriteMerges(s: MockState, path: string, data: Value)
    requires ProfileTarget(s, path).Some?
    ensures MapGet(SetPath(s, path, data).users, ProfileTarget(s, path).value).Some?
    ensures var email := ProfileTarget(s, path).value;
      var old_ := MapGet(s.users, email).value;
      var new_ := MapGet(SetPath(s, path, data).users, email).value;
      && (forall f :: f in Spread(data) ==> Field(new_, f) == Spread(data)[f])
      && (forall f :: f !in Spread(data) ==> Field(new_, f) == Field(old_, f))
      && (forall other :: other != email ==> MapGet(SetPath(s, path, data).users, other) == MapGet(s.users, other))
  {
    var email := ProfileTarget(s, path).value;
    MapSetSemantics(s.users, email, MapGet(s.users, email).value + Spread(data));
  }

  /** Without a session, or for another user's path, a profile write changes no account. */
  lemma ProfileWriteNeedsOwnSession(s: MockState, uid: string, data: Value)
    requires '/' !in uid
    requires s.currentUser.None? || s.currentUser.value.uid != Str(uid)
    ensures SetPath(s, UsersPrefix + uid, data) == s
  {
    SecondSegmentOfJoin(UsersPrefix, uid);
    assert (UsersPrefix + uid)[0] == 'u';
  }

  /**
   * When a profile write applies, it is the whole of `set`: the account is
   * replaced by the merge, the path is not the chat path, and the Map keeps
   * distinct keys.
   */
  lemma ProfileWriteStep(s: MockState, path: string, data: Value)
    requires DistinctKeys(s.users) && ProfileTarget(s, path).Some?
    ensures var email := ProfileTarget(s, path).value;
      var users' := MapSet(s.users, email, MapGet(s.users, email).value + Spread(data));
      && path != ChatPath
      && DistinctKeys(users')
      && SetPath(s, path, data) == s.(users := users')
  {
    var email := ProfileTarget(s, path).value;
    MapSetSemantics(s.users, email, MapGet(s.users, email).value + Spread(data));
    assert path[0] == 'u';
  }

  /**
   * Reading a path that is not `products`, not the chat path and not under
   * `users/` or `orders/` gives null.
   */
  lemma UnknownPathReadsNull(s: MockState, path: string)
    requires !StartsWith(path, UsersPrefix) && !StartsWith(path, OrdersPrefix)
    requires path != ProductsPath && path != ChatPath
    ensures GetPath(s, path) == Null
  {
    var key := UsersPrefix + OrEmpty(CurrentUid(s));
    assert key[..|UsersPrefix|] == UsersPrefix;
  }

  /** After `set('chatbot/history', t)` a read of that path returns exactly `t`. */
  lemma ChatRoundTrip(s: MockState, t: Value)
    ensures GetPath(SetPath(s, ChatPath, t), ChatPath) == t
  {
    var s' := SetPath(s, ChatPath, t);
    assert (UsersPrefix + OrEmpty(CurrentUid(s')))[0] == 'u';
  }

  /** A `set` on a path that is neither under `users/` nor the chat transcript changes nothing. */
  lemma UnknownPathSetIsDropped(s: MockState, path: string, data: Value)
    requires !StartsWith(path, UsersPrefix) && path != ChatPath
    ensures SetPath(s, path, data) == s
    ensures !SetSaves(s, path)
  {
  }

  /** An order written under `orders/<id>` is dropped, so reading it back finds what was there before. */
  lemma OrderWriteDropped(s: MockState, id: string, order: Value)
    ensures SetPath(s, OrdersPrefix + id, order) == s
    ensures !SetSaves(s, OrdersPrefix + id)
    ensures GetPath(SetPath(s, OrdersPrefix + id, order), OrdersPrefix + id) == GetPath(s, OrdersPrefix + id)
  {
    assert !StartsWith(OrdersPrefix + id, UsersPrefix) by {
      assert (OrdersPrefix + id)[0] == 'o';
    }
    assert OrdersPrefix + id != ChatPath by {
      assert (OrdersPrefix + id)[0] == 'o';
    }
  }

  /**
   * Reading `users/X` yields a profile only when X is what `currentUser?.uid || ''`
   * renders to, and the profile's `id` is that uid. For a non-empty X that
   * means a session with that uid; for X empty it includes having no session,
   * where the profile is an account whose `id` reads as undefined
   * (see `NoSessionReadsIdlessAccount`).
   */
  lemma ProfileReadIsSelfOnly(s: MockState, x: string)
    requires GetPath(s, UsersPrefix + x) != Null
    ensures OrEmpty(CurrentUid(s)) == x
    ensures x != "" ==> s.currentUser.Some?
    ensures GetPath(s, UsersPrefix + x).Object?
    ensures Field(GetPath(s, UsersPrefix + x).fields, "id") == CurrentUid(s)
  {
    var p := UsersPrefix + x;
    var key := UsersPrefix + OrEmpty(CurrentUid(s));
    UsersPathFallsThrough(s, x);
    assert x == OrEmpty(CurrentUid(s)) by {
      assert p[|UsersPrefix|..] == x;
      assert key[|UsersPrefix|..] == OrEmpty(CurrentUid(s));
    }
  }

  /**
   * With no session, a read of `users/` looks for an account whose `id` is
   * undefined, and so returns the first account that has no `id` field (or
   * one set to undefined).
   */
  lemma NoSessionReadsIdlessAccount(s: MockState)
    requires s.currentUser.None?
    ensures var i := UserIndexById(s.users, Undefined);
      && GetPath(s, UsersPrefix) == (if i >= 0 then Object(s.users[i].1) else Null)
      && (i >= 0 ==> Field(s.users[i].1, "id") == Undefined)
  {
    assert UsersPrefix + OrEmpty(CurrentUid(s)) == UsersPrefix;
  }

  /** A concrete state: signed out, one account stored without an `id`, and `users/` returns it. */
  lemma IdlessAccountIsReadable()
    ensures var account := map["email" := Str("a@example.com")];
      GetPath(Initial.(users := [("a@example.com", account)]), UsersPrefix) == Object(account)
  {
    var account := map["email" := Str("a@example.com")];
    NoSessionReadsIdlessAccount(Initial.(users := [("a@example.com", account)]));
  }

  /** A `users/` path other than the session's own reads as null. */
  lemma UsersPathFallsThrough(s: MockState, x: string)
    ensures UsersPrefix + x != UsersPrefix + OrEmpty(CurrentUid(s)) ==> GetPath(s, UsersPrefix + x) == Null
  {
    var p := UsersPrefix + x;
    assert p[0] == 'u';
    assert |p| < |OrdersPrefix| || p[..|OrdersPrefix|][0] == 'u';
  }

  /**
   * Writing profile fields to one's own path and reading it back gives the
   * old account merged with those fields, when the write does not change the
   * account's id.
   */
  lemma ProfileWriteThenRead(s: MockState, uid: string, fields: Record)
    requires DistinctKeys(s.users)
    requires '/' !in uid
    requires s.currentUser.Some? && s.currentUser.value.uid == Str(uid)
    requires ProfileTarget(s, UsersPrefix + uid).Some?
    requires "id" in fields ==> fields["id"] == Str(uid)
    ensures var email := ProfileTarget(s, UsersPrefix + uid).value;
      GetPath(SetPath(s, UsersPrefix + uid, Object(fields)), UsersPrefix + uid)
        == Object(MapGet(s.users, email).value + fields)
  {
    var path := UsersPrefix + uid;
    SecondSegmentOfJoin(UsersPrefix, uid);
    var i := UserIndexById(s.users, Str(uid));
    var email := s.users[i].0;
    var merged := MapGet(s.users, email).value + fields;
    assert KeyIndex(s.users, email) == i;
    var s' := SetPath(s, path, Object(fields));
    assert s'.users == s.users[i := (email, merged)];
    assert Field(merged, "id") == Str(uid);
    forall j | 0 <= j < i ensures Field(s'.users[j].1, "id") != Str(uid) {
      assert s'.users[j] == s.users[j];
    }
    assert s'.users[i].1 == merged;
    assert Field(s'.users[i].1, "id") == Str(uid);
    assert UserIndexById(s'.users, Str(uid)) == i;
    assert OrEmpty(CurrentUid(s')) == uid;
  }

  /** `push` appends one record carrying the key at the end of the products; earlier products are untouched. */
  lemma PushAppends(s: MockState, data: Value, key: string)
    ensures var p := Push(s, data, key).products;
      && |p| == |s.products| + 1
      && p[..|s.products|] == s.products
      && Field(p[|s.products|], "id") == Str(key)
      && (forall f :: f in Spread(data) && f != "id" ==> Field(p[|s.products|], f) == Spread(data)[f])
    ensures Push(s, data, key).(products := s.products) == s
  {
  }

  /** With a key no product carried before, exactly the pushed record is found under that key. */
  lemma PushedKeyIsFound(s: MockState, data: Value, key: string)
    requires forall r :: r in s.products ==> Field(r, "id") != Str(key)
    ensures RecordById(Push(s, data, key).products, Str(key)) == Some(Spread(data)["id" := Str(key)])
  {
    var p := Push(s, data, key).products;
    var fresh_ := Spread(data)["id" := Str(key)];
    assert p == s.products + [fresh_];
    RecordByIdAppend(s.products, fresh_, Str(key));
  }

  lemma {:induction false} RecordByIdAppend(rs: seq<Record>, r: Record, id: Value)
    requires forall x :: x in rs ==> Field(x, "id") != id
    requires Field(r, "id") == id
    ensures RecordById(rs + [r], id) == Some(r)
  {
    if rs == [] {
      assert rs + [r] == [r];
    } else {
      assert (rs + [r])[1..] == rs[1..] + [r];
      RecordByIdAppend(rs[1..], r, id);
    }
  }

  /** Reading `products` after a push yields one more entry, the last being the pushed record. */
  lemma PushThenReadProducts(s: MockState, data: Value, key: string)
    ensures var v := GetPath(Push(s, data, key), ProductsPath);
      v.List? && |v.elems| == |s.products| + 1 &&
      v.elems[|s.products|] == Object(Spread(data)["id" := Str(key)])
  {
    var s' := Push(s, data, key);
    assert (UsersPrefix + OrEmpty(CurrentUid(s')))[0] == 'u';
  }

  /** No operation writes the orders: they only ever come from storage. */
  lemma OrdersOnlyFromStorage(s: MockState, path: string, data: Value, key: string, email: string, password: string, newId: string)
    ensures SetPath(s, path, data).orders == s.orders
    ensures Push(s, data, key).orders == s.orders
    ensures SignUp(s, email, password, newId).0.orders == s.orders
    ensures SignIn(s, email, password).0.orders == s.orders
    ensures SignOut(s).orders == s.orders
  {
  }

  /** `on` delivers what a read delivers for `products`, and null for every other path. */
  lemma OnMatchesGetForProducts(s: MockState, path: string)
    ensures OnValue(s, ProductsPath) == GetPath(s, ProductsPath)
    ensures path != ProductsPath ==> OnValue(s, path) == Null
  {
    assert (UsersPrefix + OrEmpty(CurrentUid(s)))[0] == 'u';
  }
}
