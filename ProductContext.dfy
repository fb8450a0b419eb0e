/**
 * The product/session store that every screen shares (Pages/ProductContext.js).
 *
 * The store holds the product list, the logged-in user and the bearer token.
 * Each operation is modelled once its server request has settled: the reply
 * is an input (`Reply`), and the operation is the state change the code makes
 * for that reply. The list updates themselves are pure functions
 * (`WithoutId`, `Replaced`, `FromRegistration`); the lemmas relate them.
 */
module ProductContext {
  import opened Common
  import Text

  /** The logged-in user: an opaque record of which the store reads only `_id`. */
  datatype User = User(id: Option<string>, profile: map<string, string>)

  /**
   * A product in the list. `key` is the server-assigned `_id`; products built
   * from a registration form carry a client-made `localId` (`id`) instead.
   */
  datatype Product = Product(
    key: Option<string>,
    localId: Option<string>,
    name: string,
    description: string,
    price: string,
    image: ImageValue)

  /** The product a screen hands to `addProduct`. */
  datatype Draft = Draft(name: string, description: string, price: string, category: string, image: ImageValue)

  /** The JSON body `addProduct` POSTs. */
  datatype AddRequest = AddRequest(
    name: string,
    description: string,
    price: string,
    image: ImageValue,
    buyerId: Option<string>)

  const AuthRequired := "Authentication required"
  const RegistrationDescription := "Set a description for this product."
  const RegistrationPrice := "0.00"

  function KeyDiffers(id: Option<string>): Product -> bool
  {
    (p: Product) => p.key != id
  }

  /** `list.filter(product => product._id !== id)`. */
  function WithoutId(s: seq<Product>, id: Option<string>): (r: seq<Product>)
    ensures forall p :: p in r <==> p in s && p.key != id
  {
    Filter(s, KeyDiffers(id))
  }

  /** `list.map(product => product._id === id ? q : product)`. */
  function Replaced(s: seq<Product>, id: Option<string>, q: Product): (r: seq<Product>)
  {
    seq(|s|, i requires 0 <= i < |s| => if s[i].key == id then q else s[i])
  }

  /** No two products that have a server id share it. */
  ghost predicate KeysDistinct(s: seq<Product>)
  {
    forall i, j :: 0 <= i < j < |s| && s[i].key.Some? ==> s[i].key != s[j].key
  }

  /** The product `initializeProductsFromRegistration` builds for one name typed at registration. */
  function RegistrationProduct(name: string, userId: string, now: nat): Product
  {
    var trimmed := Text.Trim(name);
    Product(None, Some(userId + "-" + trimmed + "-" + Text.NatToString(now)), trimmed,
            RegistrationDescription, RegistrationPrice, CinnamonPicture)
  }

  /** `names.map(...)`: one product per name, in the same order. */
  function FromRegistration(names: seq<string>, userId: string, now: nat): (r: seq<Product>)
    ensures |r| == |names|
  {
    seq(|names|, i requires 0 <= i < |names| => RegistrationProduct(names[i], userId, now))
  }

  /** Deleting keeps the surviving products in their original order. */
  lemma DeleteKeepsOrder(s: seq<Product>, id: Option<string>)
    ensures Subsequence(WithoutId(s, id), s)
  {
    FilterIsSubsequence(s, KeyDiffers(id));
  }

  /** Deleting the same id twice removes nothing more. */
  lemma DeleteIdempotent(s: seq<Product>, id: Option<string>)
    ensures WithoutId(WithoutId(s, id), id) == WithoutId(s, id)
  {
    FilterIdempotent(s, KeyDiffers(id));
  }

  /** Deleting an id no product carries leaves the list as it was. */
  lemma DeleteAbsentId(s: seq<Product>, id: Option<string>)
    requires forall p :: p in s ==> p.key != id
    ensures WithoutId(s, id) == s
  {
    FilterKeepsAll(s, KeyDiffers(id));
  }

  /** Adding a product with a fresh server id and then deleting that id restores the list. */
  lemma DeleteUndoesAdd(s: seq<Product>, p: Product)
    requires p.key.Some?
    requires forall x :: x in s ==> x.key != p.key
    ensures WithoutId(s + [p], p.key) == s
  {
    FilterAppend(s, [p], KeyDiffers(p.key));
    FilterKeepsAll(s, KeyDiffers(p.key));
    assert Filter([p], KeyDiffers(p.key)) == [];
  }

  /** Updating keeps the length and touches exactly the products carrying the id. */
  lemma UpdateShape(s: seq<Product>, id: Option<string>, q: Product, i: int)
    requires 0 <= i < |s|
    ensures |Replaced(s, id, q)| == |s|
    ensures s[i].key == id ==> Replaced(s, id, q)[i] == q
    ensures s[i].key != id ==> Replaced(s, id, q)[i] == s[i]
  {
  }

  /** Updating an id no product carries leaves the list as it was. */
  lemma UpdateAbsentId(s: seq<Product>, id: Option<string>, q: Product)
    requires forall p :: p in s ==> p.key != id
    ensures Replaced(s, id, q) == s
  {
    var r := Replaced(s, id, q);
    forall i | 0 <= i < |s| ensures r[i] == s[i] {
      assert s[i] in s;
    }
  }

  /** Applying the same update twice is applying it once, when the server keeps the id. */
  lemma UpdateIdempotent(s: seq<Product>, id: Option<string>, q: Product)
    requires q.key == id
    ensures Replaced(Replaced(s, id, q), id, q) == Replaced(s, id, q)
  {
  }

  /** Deleting after an update that keeps the id gives what deleting alone gives. */
  lemma {:induction false} DeleteAfterUpdate(s: seq<Product>, id: Option<string>, q: Product)
    requires q.key == id
    ensures WithoutId(Replaced(s, id, q), id) == WithoutId(s, id)
  {
    if s != [] {
      DeleteAfterUpdate(s[1..], id, q);
      var r := Replaced(s, id, q);
      assert r[1..] == Replaced(s[1..], id, q);
      assert r[0].key == s[0].key;
    }
  }

  /** Deleting keeps the server ids distinct. */
  lemma {:induction false} DeleteKeepsKeysDistinct(s: seq<Product>, id: Option<string>)
    requires KeysDistinct(s)
    ensures KeysDistinct(WithoutId(s, id))
  {
    if s != [] {
      DeleteKeepsKeysDistinct(s[1..], id);
      var rest := WithoutId(s[1..], id);
      var r := WithoutId(s, id);
      if s[0].key != id {
        assert r == [s[0]] + rest;
        forall j | 0 < j < |r| && s[0].key.Some? ensures s[0].key != r[j].key {
          assert r[j] in rest;
          var k :| 0 <= k < |s[1..]| && s[1..][k] == r[j];
          assert s[k + 1] == r[j];
        }
      } else {
        assert r == rest;
      }
    }
  }

  /** An update whose server answer keeps the id keeps the server ids distinct. */
  lemma UpdateKeepsKeysDistinct(s: seq<Product>, id: Option<string>, q: Product)
    requires KeysDistinct(s) && q.key == id
    ensures KeysDistinct(Replaced(s, id, q))
  {
    var r := Replaced(s, id, q);
    assert forall i :: 0 <= i < |s| ==> r[i].key == s[i].key;
  }

  /** Appending a product whose server id is new keeps the server ids distinct. */
  lemma AddKeepsKeysDistinct(s: seq<Product>, p: Product)
    requires KeysDistinct(s)
    requires p.key.Some? ==> forall x :: x in s ==> x.key != p.key
    ensures KeysDistinct(s + [p])
  {
    var r := s + [p];
    forall i, j | 0 <= i < j < |r| && r[i].key.Some? ensures r[i].key != r[j].key {
      if j == |s| {
        assert r[i] in s;
      }
    }
  }

  /** Registration products have trimmed names, the placeholder price and description, and no server id. */
  lemma RegistrationProducts(names: seq<string>, userId: string, now: nat, i: int)
    requires 0 <= i < |names|
    ensures var p := FromRegistration(names, userId, now)[i];
      && p.name == Text.Trim(names[i]) && Text.Trim(p.name) == p.name
      && p.price == "0.00" && p.description == "Set a description for this product."
      && p.key == None && p.image == CinnamonPicture
  {
    Text.TrimIdempotent(names[i]);
  }

  /**
   * Registration products have no `_id`, so a successful `deleteProduct(undefined)`
   * removes all of them while a delete by a real id removes none.
   */
  lemma RegistrationProductsHaveNoKey(names: seq<string>, userId: string, now: nat, id: string)
    ensures WithoutId(FromRegistration(names, userId, now), None) == []
    ensures WithoutId(FromRegistration(names, userId, now), Some(id)) == FromRegistration(names, userId, now)
  {
    var s := FromRegistration(names, userId, now);
    assert forall p :: p in s ==> p.key == None;
    DeleteAbsentId(s, Some(id));
    FilterKeepsNone(s, KeyDiffers(None));
  }

  /** Device key-value storage, holding the token under `userToken` and the user under `userData`. */
  class DeviceStorage {
    var userToken: Option<string>
    var userData: Option<User>

    constructor ()
      ensures userToken == None && userData == None
    {
      userToken := None;
      userData := None;
    }
  }

  class Store {
    var products: seq<Product>
    var currentUser: Option<User>
    var authToken: Option<string>

    /** The provider's initial state, before `loadUserData` has run. */
    constructor ()
      ensures products == [] && currentUser == None && authToken == None
    {
      products := [];
      currentUser := None;
      authToken := None;
    }

    /** `currentUser?._id`. */
    function CurrentUserId(): Option<string>
      reads this
    {
      if currentUser.Some? then currentUser.value.id else None
    }

    /**
     * `fetchProducts(token, buyerId)` once the GET has settled with `reply`
     * (a body of `null` is `Ok(None)`). Without a token or a buyer id nothing
     * is requested; any failure keeps the cached list.
     */
    method FetchProducts(token: Option<string>, buyerId: Option<string>, reply: Reply<Option<seq<Product>>>)
      modifies this`products
      ensures !(Truthy(token) && Truthy(buyerId)) ==> products == old(products)
      ensures Truthy(token) && Truthy(buyerId) && reply.Ok? ==>
        products == (if reply.body.Some? then reply.body.value else [])
      ensures !reply.Ok? ==> products == old(products)
    {
      if !Truthy(token) || !Truthy(buyerId) {
        return;
      }
      match reply
      case Ok(body) =>
        products := if body.Some? then body.value else [];
      case HttpError(_) =>
      case NetworkError =>
    }

    /** `fetchProducts()` called without arguments: the token and user id default to the store's own. */
    method RefreshProducts(reply: Reply<Option<seq<Product>>>)
      modifies this`products
      ensures !(Truthy(authToken) && Truthy(CurrentUserId())) || !reply.Ok? ==> products == old(products)
      ensures Truthy(authToken) && Truthy(CurrentUserId()) && reply.Ok? ==>
        products == (if reply.body.Some? then reply.body.value else [])
    {
      FetchProducts(authToken, CurrentUserId(), reply);
    }

    /**
     * `addProduct(draft)` once the POST has settled with `reply`. Without a
     * token or a user it rejects before any request. A failed request is
     * logged and swallowed by the function's own `catch`: it resolves to
     * `undefined` and the list is unchanged.
     */
    method AddProduct(draft: Draft, reply: Reply<Product>) returns (sent: Option<AddRequest>, result: Settled<Option<Product>>)
      modifies this`products
      ensures !Truthy(authToken) || currentUser.None? ==>
        sent == None && result == Rejected(AuthRequired) && products == old(products)
      ensures Truthy(authToken) && currentUser.Some? ==>
        && sent == Some(AddRequest(draft.name, draft.description, draft.price, draft.image, currentUser.value.id))
        && (reply.Ok? ==> products == old(products) + [reply.body] && result == Resolved(Some(reply.body)))
        && (!reply.Ok? ==> products == old(products) && result == Resolved(None))
    {
      if !Truthy(authToken) || currentUser.None? {
        return None, Rejected(AuthRequired);
      }
      sent := Some(AddRequest(draft.name, draft.description, draft.price, draft.image, currentUser.value.id));
      match reply
      case Ok(created) =>
        products := products + [created];
        result := Resolved(Some(created));
      case HttpError(_) =>
        result := Resolved(None);
      case NetworkError =>
        result := Resolved(None);
    }

    /**
     * `deleteProduct(productId)` once the DELETE has settled with `reply`.
     * Without a token it rejects; a failure is logged and the list kept.
     */
    method DeleteProduct(productId: Option<string>, reply: Reply<()>) returns (result: Settled<()>)
      modifies this`products
      ensures !Truthy(authToken) ==> result == Rejected(AuthRequired) && products == old(products)
      ensures Truthy(authToken) ==> result == Resolved(())
      ensures Truthy(authToken) && reply.Ok? ==> products == WithoutId(old(products), productId)
      ensures !reply.Ok? ==> products == old(products)
    {
      if !Truthy(authToken) {
        return Rejected(AuthRequired);
      }
      if reply.Ok? {
        products := WithoutId(products, productId);
      }
      result := Resolved(());
    }

    /**
     * `updateProduct(productId, updates)` once the PUT has settled with
     * `reply`, whose body is the server's version of the product.
     */
    method UpdateProduct(productId: Option<string>, reply: Reply<Product>) returns (result: Settled<()>)
      modifies this`products
      ensures !Truthy(authToken) ==> result == Rejected(AuthRequired) && products == old(products)
      ensures Truthy(authToken) ==> result == Resolved(())
      ensures Truthy(authToken) && reply.Ok? ==> products == Replaced(old(products), productId, reply.body)
      ensures !reply.Ok? ==> products == old(products)
    {
      if !Truthy(authToken) {
        return Rejected(AuthRequired);
      }
      result := Resolved(());
      match reply
      case Ok(updated) =>
        products := Replaced(products, productId, updated);
      case HttpError(_) =>
      case NetworkError =>
    }

    /** `initializeProductsFromRegistration(names, userId)` at time `now` (`Date.now()`). */
    method InitializeProductsFromRegistration(names: seq<string>, userId: string, now: nat)
      modifies this`products
      ensures products == FromRegistration(names, userId, now)
    {
      products := FromRegistration(names, userId, now);
    }

    /** `setUser(user)`: memory first, then storage; a failed write is only logged. */
    method SetUser(user: User, storage: DeviceStorage, writeOk: bool)
      modifies this`currentUser, storage`userData
      ensures currentUser == Some(user)
      ensures storage.userData == if writeOk then Some(user) else old(storage.userData)
    {
      currentUser := Some(user);
      if writeOk {
        storage.userData := Some(user);
      }
    }

    /** `setToken(token)`: memory first, then storage; a failed write is only logged. */
    method SetToken(token: string, storage: DeviceStorage, writeOk: bool)
      modifies this`authToken, storage`userToken
      ensures authToken == Some(token)
      ensures storage.userToken == if writeOk then Some(token) else old(storage.userToken)
    {
      authToken := Some(token);
      if writeOk {
        storage.userToken := Some(token);
      }
    }

    /**
     * `clearUserData()` (logout). The two storage removals run first; if the
     * first throws nothing changes, if the second throws only the stored
     * token is gone. The in-memory session is cleared only when both succeed.
     */
    method ClearUserData(storage: DeviceStorage, removeTokenOk: bool, removeDataOk: bool)
      modifies this, storage
      ensures removeTokenOk && removeDataOk ==>
        authToken == None && currentUser == None && products == []
        && storage.userToken == None && storage.userData == None
      ensures !(removeTokenOk && removeDataOk) ==>
        authToken == old(authToken) && currentUser == old(currentUser) && products == old(products)
        && storage.userData == old(storage.userData)
        && storage.userToken == (if removeTokenOk then None else old(storage.userToken))
    {
      if !removeTokenOk {
        return;
      }
      storage.userToken := None;
      if !removeDataOk {
        return;
      }
      storage.userData := None;
      authToken := None;
      currentUser := None;
      products := [];
    }

    /**
     * `loadUserData()` at start-up: when storage can be read and holds both a
     * token and a user, they become the session and the user's products are
     * fetched (settling with `reply`); otherwise nothing changes.
     */
    method LoadUserData(storage: DeviceStorage, readOk: bool, reply: Reply<Option<seq<Product>>>)
      modifies this
      ensures readOk && Truthy(storage.userToken) && storage.userData.Some? ==>
        && authToken == storage.userToken && currentUser == storage.userData
        && (Truthy(storage.userData.value.id) && reply.Ok? ==>
              products == (if reply.body.Some? then reply.body.value else []))
        && (!Truthy(storage.userData.value.id) || !reply.Ok? ==> products == old(products))
      ensures !(readOk && Truthy(storage.userToken) && storage.userData.Some?) ==>
        authToken == old(authToken) && currentUser == old(currentUser) && products == old(products)
    {
      if readOk && Truthy(storage.userToken) && storage.userData.Some? {
        authToken := storage.userToken;
        currentUser := storage.userData;
        FetchProducts(storage.userToken, storage.userData.value.id, reply);
      }
    }
  }

  /**
   * A login followed by a restart: `setToken` and `setUser` with working
   * storage, then a fresh store's `loadUserData` restores the same session,
   * except that an empty token is falsy and restores nothing.
   */
  method RestartRestoresSession(user: User, token: string, reply: Reply<Option<seq<Product>>>)
    returns (restoredUser: Option<User>, restoredToken: Option<string>)
    ensures token != "" ==> restoredUser == Some(user) && restoredToken == Some(token)
    ensures token == "" ==> restoredUser == None && restoredToken == None
  {
    var storage := new DeviceStorage();
    var before := new Store();
    before.SetToken(token, storage, true);
    before.SetUser(user, storage, true);
    var after := new Store();
    after.LoadUserData(storage, true, reply);
    restoredUser, restoredToken := after.currentUser, after.authToken;
  }

  /** A logout whose storage removals succeed leaves nothing for the next start-up to restore. */
  method RestartAfterLogout(user: User, token: string, reply: Reply<Option<seq<Product>>>)
    returns (restoredUser: Option<User>, restoredToken: Option<string>, restoredProducts: seq<Product>)
    ensures restoredUser == None && restoredToken == None && restoredProducts == []
  {
    var storage := new DeviceStorage();
    var before := new Store();
    before.SetToken(token, storage, true);
    before.SetUser(user, storage, true);
    before.ClearUserData(storage, true, true);
    var after := new Store();
    after.LoadUserData(storage, true, reply);
    restoredUser, restoredToken, restoredProducts := after.currentUser, after.authToken, after.products;
  }
}
