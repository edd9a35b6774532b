/** The HTTP handlers of backend/server.js over the four JSON collections.
    Each collection file is one `seq` field of `Store`: a handler's
    `readJson` is a read of the field and its `writeJson` an assignment of
    the whole sequence. The routing middleware (`requireAuth`,
    `requireAdmin`, `requireStaff`) runs first in every gated handler, as in
    the route declarations. Fresh identifiers (`uuidv4`) and the clock
    (`Date.now`) are parameters. */
module Server {
  import opened Common
  import opened Records

  /** The status codes the handlers answer with when they do not succeed. */
  datatype Error = BadRequest | Unauthorized | Forbidden | NotFound | Conflict | ServerError
  {
    function Code(): int
    {
      match this
      case BadRequest => 400
      case Unauthorized => 401
      case Forbidden => 403
      case NotFound => 404
      case Conflict => 409
      case ServerError => 500
    }
  }

  datatype Result<T> = Ok(value: T) | Fail(error: Error)

  /** Response of `/api/calc-total`. */
  datatype Quote = Quote(subtotal: int, shipping: int, total: int)

  /** Response of `/api/admin/data`. */
  datatype Dashboard = Dashboard(totalRevenue: int, orderCount: nat, productCount: nat, userCount: nat)

  /** What Google's `verifyIdToken` yields: the payload's email and name
      ("" when the payload has none), or a thrown verification error. */
  datatype GoogleVerification = GoogleVerified(email: string, name: string) | GoogleFailed

  /** What the Graph API call `/me?fields=id,name,email` yields: a profile,
      a response that is not ok, or a thrown error (network, JSON). */
  datatype GraphReply = GraphProfile(id: string, name: string, email: string) | GraphRejected | GraphUnreachable

  const FreeShippingAbove := 500000
  const ShippingFee := 20000
  const WalkInCustomer := "Khách vãng lai"
  const PlaceholderImage := "/products/placeholder.svg"
  const FacebookMailDomain := "@facebook.local"

  // ------------------------------------------------------------ lookups

  /** `getSession`: no token, or the first session holding exactly it. */
  function GetSession(sessions: seq<Session>, token: string): (r: Option<Session>)
    ensures r.None? <==> token == "" || forall i :: 0 <= i < |sessions| ==> sessions[i].token != token
    ensures r.Some? ==> r.value.token == token && r.value in sessions
    ensures r.Some? ==> exists i :: 0 <= i < |sessions| && sessions[i] == r.value && forall j :: 0 <= j < i ==> sessions[j].token != token
  {
    if token == "" then None else Find(sessions, (s: Session) => s.token == token)
  }

  /** `users.find(u => u.id === id)`. */
  function FindUserById(users: seq<User>, id: string): (r: Option<User>)
    ensures r.None? <==> forall i :: 0 <= i < |users| ==> users[i].id != id
    ensures r.Some? ==> r.value.id == id && r.value in users
    ensures r.Some? ==> exists i :: 0 <= i < |users| && users[i] == r.value && forall j :: 0 <= j < i ==> users[j].id != id
  {
    Find(users, (u: User) => u.id == id)
  }

  /** `users.find(u => u.email === email)`. */
  function FindUserByEmail(users: seq<User>, email: string): (r: Option<User>)
    ensures r.None? <==> forall i :: 0 <= i < |users| ==> users[i].email != email
    ensures r.Some? ==> r.value.email == email && r.value in users
    ensures r.Some? ==> exists i :: 0 <= i < |users| && users[i] == r.value && forall j :: 0 <= j < i ==> users[j].email != email
  {
    Find(users, (u: User) => u.email == email)
  }

  /** `products.find(p => p.id === id)`. */
  function FindProduct(products: seq<Product>, id: string): (r: Option<Product>)
    ensures r.None? <==> forall i :: 0 <= i < |products| ==> products[i].id != id
    ensures r.Some? ==> r.value.id == id && r.value in products
    ensures r.Some? ==> exists i :: 0 <= i < |products| && products[i] == r.value && forall j :: 0 <= j < i ==> products[j].id != id
  {
    Find(products, (p: Product) => p.id == id)
  }

  /** `products.findIndex(p => p.id === id)`, -1 being `None`. */
  function ProductIndex(products: seq<Product>, id: string): (r: Option<nat>)
    ensures r.None? <==> forall i :: 0 <= i < |products| ==> products[i].id != id
    ensures r.Some? ==> r.value < |products| && products[r.value].id == id
    ensures r.Some? ==> forall j :: 0 <= j < r.value ==> products[j].id != id
  {
    FirstIndex(products, (p: Product) => p.id == id)
  }

  /** `orders.findIndex(o => o.id === id)`, -1 being `None`. */
  function OrderIndex(orders: seq<Order>, id: string): (r: Option<nat>)
    ensures r.None? <==> forall i :: 0 <= i < |orders| ==> orders[i].id != id
    ensures r.Some? ==> r.value < |orders| && orders[r.value].id == id
    ensures r.Some? ==> forall j :: 0 <= j < r.value ==> orders[j].id != id
  {
    FirstIndex(orders, (o: Order) => o.id == id)
  }

  // -------------------------------------------------------------- gates

  /** `requireAuth`: 401 without a session, otherwise the session's user id. */
  function RequireAuth(sessions: seq<Session>, token: string): (r: Result<string>)
    ensures r.Fail? <==> token == "" || forall i :: 0 <= i < |sessions| ==> sessions[i].token != token
    ensures r.Fail? ==> r.error == Unauthorized
    ensures r.Ok? ==> exists s :: s in sessions && s.token == token && s.userId == r.value
    ensures r.Ok? ==> r.value == GetSession(sessions, token).value.userId
  {
    match GetSession(sessions, token)
    case None => Fail(Unauthorized)
    case Some(s) => Ok(s.userId)
  }

  /** `requireAdmin`: 401 without a session; 403 when the session's user is
      missing or is not an admin. */
  function RequireAdmin(sessions: seq<Session>, users: seq<User>, token: string): (r: Result<string>)
    ensures r == Fail(Unauthorized) <==> RequireAuth(sessions, token).Fail?
    ensures r.Fail? ==> r.error == Unauthorized || r.error == Forbidden
    ensures r.Ok? ==> RequireAuth(sessions, token) == r
    ensures r.Ok? ==> exists u :: u in users && u.id == r.value && u.role == "admin"
    ensures r.Ok? <==> RequireAuth(sessions, token).Ok?
                       && FindUserById(users, RequireAuth(sessions, token).value).Some?
                       && FindUserById(users, RequireAuth(sessions, token).value).value.role == "admin"
    ensures (RequireAuth(sessions, token).Ok? &&
             forall u :: u in users && u.id == RequireAuth(sessions, token).value ==> u.role != "admin")
            ==> r == Fail(Forbidden)
  {
    match GetSession(sessions, token)
    case None => Fail(Unauthorized)
    case Some(s) =>
      match FindUserById(users, s.userId)
      case None => Fail(Forbidden)
      case Some(u) => if u.role != "admin" then Fail(Forbidden) else Ok(s.userId)
  }

  /** `requireStaff`: as `requireAdmin`, but a staff member passes too. */
  function RequireStaff(sessions: seq<Session>, users: seq<User>, token: string): (r: Result<string>)
    ensures r == Fail(Unauthorized) <==> RequireAuth(sessions, token).Fail?
    ensures r.Fail? ==> r.error == Unauthorized || r.error == Forbidden
    ensures r.Ok? ==> RequireAuth(sessions, token) == r
    ensures r.Ok? ==> exists u :: u in users && u.id == r.value && (u.role == "admin" || u.role == "staff")
    ensures r.Ok? <==> RequireAuth(sessions, token).Ok?
                       && FindUserById(users, RequireAuth(sessions, token).value).Some?
                       && (FindUserById(users, RequireAuth(sessions, token).value).value.role == "admin"
                           || FindUserById(users, RequireAuth(sessions, token).value).value.role == "staff")
    ensures (RequireAuth(sessions, token).Ok? &&
             forall u :: u in users && u.id == RequireAuth(sessions, token).value ==> u.role != "admin" && u.role != "staff")
            ==> r == Fail(Forbidden)
  {
    match GetSession(sessions, token)
    case None => Fail(Unauthorized)
    case Some(s) =>
      match FindUserById(users, s.userId)
      case None => Fail(Forbidden)
      case Some(u) => if u.role != "admin" && u.role != "staff" then Fail(Forbidden) else Ok(s.userId)
  }

  /** Whoever passes the admin gate passes the staff gate, as the same user. */
  lemma AdminPassesStaffGate(sessions: seq<Session>, users: seq<User>, token: string)
    ensures RequireAdmin(sessions, users, token).Ok? ==> RequireStaff(sessions, users, token) == RequireAdmin(sessions, users, token)
  {
  }

  // ------------------------------------------------------------ sign-in

  /** `u.password === password`: an absent password (`undefined`) equals no
      stored password, since every stored user holds a string. */
  predicate PasswordFits(u: User, password: Option<string>)
  {
    password.Some? && u.password == password.value
  }

  /** `email && u.email === email && u.password === password`. */
  predicate EmailFits(u: User, email: string, password: Option<string>)
  {
    email != "" && u.email == email && PasswordFits(u, password)
  }

  /** `phone && u.phone === phone && u.password === password`. */
  predicate PhoneFits(u: User, phone: string, password: Option<string>)
  {
    phone != "" && u.phone == phone && PasswordFits(u, password)
  }

  /** The user `/api/login` signs in: the first user fitting email and
      password, or, if there is none, the first fitting phone and password.
      Passwords are compared as stored, so an empty password matches a user
      created by federated login, while an absent one matches nobody. */
  function MatchCredentials(users: seq<User>, email: string, phone: string, password: Option<string>): (r: Option<User>)
    ensures r.None? <==> forall i :: 0 <= i < |users| ==> !EmailFits(users[i], email, password) && !PhoneFits(users[i], phone, password)
    ensures password.None? ==> r.None?
    ensures (exists i :: 0 <= i < |users| && EmailFits(users[i], email, password)) ==>
              exists i :: 0 <= i < |users| && r == Some(users[i]) && EmailFits(users[i], email, password)
                          && forall j :: 0 <= j < i ==> !EmailFits(users[j], email, password)
    ensures (forall i :: 0 <= i < |users| ==> !EmailFits(users[i], email, password)) && r.Some? ==>
              exists i :: 0 <= i < |users| && r == Some(users[i]) && PhoneFits(users[i], phone, password)
                          && forall j :: 0 <= j < i ==> !PhoneFits(users[j], phone, password)
  {
    var byEmail := Find(users, (u: User) => EmailFits(u, email, password));
    if byEmail.Some? then byEmail
    else Find(users, (u: User) => PhoneFits(u, phone, password))
  }

  /** A freshly registered user can sign in with the same email and
      password, whatever phone is sent beside them. */
  lemma LoginAfterRegister(users: seq<User>, u: User, phone: string)
    requires u.email != ""
    requires forall v :: v in users ==> v.email != u.email
    ensures MatchCredentials(users + [u], u.email, phone, Some(u.password)) == Some(u)
  {
    var p := (v: User) => EmailFits(v, u.email, Some(u.password));
    FirstIndexAppend(users, u, p);
    assert FirstIndex(users + [u], p) == Some(|users|);
  }

  /** A user created by federated login has the empty password, and a
      password login sending that email with an empty password signs in as
      that user (the comparison at backend/server.js:122 does not exclude
      the empty password); leaving the password out signs in nobody. */
  lemma EmptyPasswordReachesFederatedUser(users: seq<User>, u: User)
    requires u.email != "" && u.password == ""
    requires forall v :: v in users ==> v.email != u.email
    ensures MatchCredentials(users + [u], u.email, "", Some("")) == Some(u)
    ensures MatchCredentials(users + [u], u.email, "", None) == None
  {
    LoginAfterRegister(users, u, "");
  }

  /** A user appended under an email nobody had is what a later lookup of
      that email finds: a second federated login reuses it. */
  lemma CreatedUserIsFound(users: seq<User>, u: User)
    requires forall v :: v in users ==> v.email != u.email
    ensures FindUserByEmail(users + [u], u.email) == Some(u)
  {
    var p := (v: User) => v.email == u.email;
    FirstIndexAppend(users, u, p);
    assert FirstIndex(users + [u], p) == Some(|users|);
  }

  /** The user a federated login signs in: the first stored user with the
      email, or else a new password-less user with the fresh id. */
  function FederatedUser(users: seq<User>, email: string, name: string, freshId: string): User
  {
    match FindUserByEmail(users, email)
    case Some(u) => u
    case None => User(freshId, name, email, "", "", "", None)
  }

  /** The user list after a federated login: unchanged for a known email,
      else extended by the new user. */
  function AfterFederated(users: seq<User>, email: string, name: string, freshId: string): seq<User>
  {
    if FindUserByEmail(users, email).Some? then users else users + [FederatedUser(users, email, name, freshId)]
  }

  /** A second federated login with the same email, whatever name and fresh
      id it carries, signs in the user the first one found or created, and
      adds no user. */
  lemma FederatedLoginReusesUser(users: seq<User>, email: string, name: string, freshId: string,
                                 name2: string, freshId2: string)
    ensures var after := AfterFederated(users, email, name, freshId);
            FederatedUser(after, email, name2, freshId2) == FederatedUser(users, email, name, freshId)
            && AfterFederated(after, email, name2, freshId2) == after
  {
    if FindUserByEmail(users, email).None? {
      CreatedUserIsFound(users, FederatedUser(users, email, name, freshId));
    }
  }

  /** A session appended under a token no other session holds resolves to
      that session. */
  lemma NewSessionResolves(sessions: seq<Session>, s: Session)
    requires s.token != ""
    requires forall i :: 0 <= i < |sessions| ==> sessions[i].token != s.token
    ensures GetSession(sessions + [s], s.token) == Some(s)
  {
    var p := (x: Session) => x.token == s.token;
    FirstIndexAppend(sessions, s, p);
    assert FirstIndex(sessions + [s], p) == Some(|sessions|);
  }

  /** The part of an email before its first '@' (`email.split('@')[0]`). */
  function LocalPart(email: string): (r: string)
    ensures IsPrefix(r, email) && '@' !in r
    ensures |r| < |email| ==> email[|r|] == '@'
  {
    if email == [] || email[0] == '@' then [] else [email[0]] + LocalPart(email[1..])
  }

  /** `/api/me`: the signed-in user without password; a missing role reads
      as "user". */
  function PublicView(u: User): (v: UserView)
    ensures v.role != ""
    ensures v.role == (if u.role == "" then "user" else u.role)
    ensures v.id == u.id && v.name == u.name && v.email == u.email && v.phone == u.phone && v.createdAt == u.createdAt
  {
    UserView(u.id, u.name, u.email, u.phone, if u.role == "" then "user" else u.role, u.createdAt)
  }

  function Me(sessions: seq<Session>, users: seq<User>, token: string): (r: Option<UserView>)
    ensures r.Some? <==> RequireAuth(sessions, token).Ok? && FindUserById(users, RequireAuth(sessions, token).value).Some?
    ensures r.Some? ==> r.value.role != "" && r.value == PublicView(FindUserById(users, RequireAuth(sessions, token).value).value)
  {
    match GetSession(sessions, token)
    case None => None
    case Some(s) =>
      match FindUserById(users, s.userId)
      case None => None
      case Some(u) => Some(PublicView(u))
  }

  // ------------------------------------------------------------- logout

  /** What `/api/logout` keeps: every session whose token differs. */
  function WithoutToken(sessions: seq<Session>, token: string): (r: seq<Session>)
    ensures IsSubseq(r, sessions)
    ensures forall i :: 0 <= i < |r| ==> r[i].token != token
    ensures forall s :: s in sessions && s.token != token ==> s in r
    ensures forall s: Session :: multiset(r)[s] == if s.token != token then multiset(sessions)[s] else 0
  {
    var keep := (s: Session) => s.token != token;
    FilterIsSubseq(sessions, keep);
    FilterCountsAll(sessions, keep);
    Filter(sessions, keep)
  }

  /** After logout the token resolves to no session. */
  lemma LogoutRevokes(sessions: seq<Session>, token: string)
    ensures GetSession(WithoutToken(sessions, token), token).None?
  {
  }

  /** Logging out twice is logging out once. */
  lemma LogoutIdempotent(sessions: seq<Session>, token: string)
    ensures WithoutToken(WithoutToken(sessions, token), token) == WithoutToken(sessions, token)
  {
    FilterIdempotent(sessions, (s: Session) => s.token != token);
  }

  /** Logging out one token leaves every other token's session in place. */
  lemma LogoutKeepsOthers(sessions: seq<Session>, token: string, other: string)
    requires other != token
    ensures GetSession(WithoutToken(sessions, token), other) == GetSession(sessions, other)
  {
    FindAfterFilter(sessions, (s: Session) => s.token != token, (s: Session) => s.token == other);
  }

  // ------------------------------------------------------------ deletion

  /** What a product DELETE keeps: every product with another id, as often
      as it was stored and in the stored order. */
  function WithoutProduct(products: seq<Product>, id: string): (r: seq<Product>)
    ensures IsSubseq(r, products)
    ensures forall i :: 0 <= i < |r| ==> r[i].id != id
    ensures |r| == |products| <==> forall i :: 0 <= i < |products| ==> products[i].id != id
    ensures forall x: Product :: x.id != id ==> multiset(r)[x] == multiset(products)[x]
  {
    var keep := (p: Product) => p.id != id;
    FilterIsSubseq(products, keep);
    FilterCountsAll(products, keep);
    Filter(products, keep)
  }

  /** What a user DELETE keeps: every user with another id, as often as it
      was stored and in the stored order. */
  function WithoutUser(users: seq<User>, id: string): (r: seq<User>)
    ensures IsSubseq(r, users)
    ensures forall i :: 0 <= i < |r| ==> r[i].id != id
    ensures |r| == |users| <==> forall i :: 0 <= i < |users| ==> users[i].id != id
    ensures forall x: User :: x.id != id ==> multiset(r)[x] == multiset(users)[x]
  {
    var keep := (u: User) => u.id != id;
    FilterIsSubseq(users, keep);
    FilterCountsAll(users, keep);
    Filter(users, keep)
  }

  /** Deleting an id nobody has leaves the catalogue as it was, and after a
      deletion no product has the id. */
  lemma DeleteProductExactly(products: seq<Product>, id: string)
    ensures (forall i :: 0 <= i < |products| ==> products[i].id != id) ==> WithoutProduct(products, id) == products
    ensures FindProduct(WithoutProduct(products, id), id).None?
  {
    if forall i :: 0 <= i < |products| ==> products[i].id != id {
      FilterKeepsAll(products, (p: Product) => p.id != id);
    }
  }

  // ------------------------------------------------------------ revenue

  predicate IsCompleted(o: Order) { o.status == Completed }

  function Total(o: Order): int { o.total }

  /** `/api/admin/data` revenue: the totals of the completed orders. */
  function Revenue(orders: seq<Order>): int
  {
    SumBy(Filter(orders, IsCompleted), Total)
  }

  /** What one order adds to revenue. */
  function Earned(o: Order): int { if o.status == Completed then o.total else 0 }

  /** Reference definition: revenue as a sum over all orders. */
  function EarnedSum(orders: seq<Order>): int
  {
    SumBy(orders, Earned)
  }

  lemma {:induction false} RevenueIsEarnedSum(orders: seq<Order>)
    ensures Revenue(orders) == EarnedSum(orders)
  {
    if orders != [] {
      var init, last := orders[..|orders| - 1], orders[|orders| - 1];
      assert orders == init + [last];
      RevenueIsEarnedSum(init);
      FilterAppend(init, last, IsCompleted);
      SumByConcat(Filter(init, IsCompleted), if IsCompleted(last) then [last] else [], Total);
      assert SumBy([last], Total) == last.total by { assert [last][..0] == []; }
    }
  }

  /** A new order is pending, so placing it leaves revenue unchanged. */
  lemma NewOrderKeepsRevenue(orders: seq<Order>, o: Order)
    requires o.status == Pending
    ensures Revenue(orders + [o]) == Revenue(orders)
  {
    RevenueIsEarnedSum(orders);
    RevenueIsEarnedSum(orders + [o]);
    assert (orders + [o])[..|orders|] == orders;
  }

  /** Replacing one order changes revenue by exactly that order's change of
      contribution: completing an order adds its total, moving a completed
      order elsewhere takes it away. */
  lemma RevenueAfterUpdate(orders: seq<Order>, i: nat, o: Order)
    requires i < |orders|
    ensures Revenue(orders[i := o]) == Revenue(orders) - Earned(orders[i]) + Earned(o)
  {
    RevenueIsEarnedSum(orders);
    RevenueIsEarnedSum(orders[i := o]);
    SumByUpdate(orders, i, o, Earned);
  }

  // ---------------------------------------------------------- calc-total

  /** One line of `/api/calc-total`: the product's price times the quantity
      (an absent or zero quantity counts as 1); nothing for an unknown id. */
  function LinePrice(products: seq<Product>, item: LineItem): int
  {
    match FindProduct(products, item.productId)
    case None => 0
    case Some(p) => p.price * (if item.quantity == 0 then 1 else item.quantity)
  }

  function Subtotal(products: seq<Product>, items: seq<LineItem>): int
  {
    SumBy(items, LinePriceIn(products))
  }

  function LinePriceIn(products: seq<Product>): LineItem -> int
  {
    (item: LineItem) => LinePrice(products, item)
  }

  /** Lines naming unknown products add nothing to the subtotal. */
  lemma {:induction false} SubtotalIgnoresUnknown(products: seq<Product>, items: seq<LineItem>)
    requires forall i :: 0 <= i < |items| ==> FindProduct(products, items[i].productId).None?
    ensures Subtotal(products, items) == 0
  {
    if items != [] {
      SubtotalIgnoresUnknown(products, items[..|items| - 1]);
    }
  }

  lemma SubtotalOfOne(products: seq<Product>, item: LineItem)
    ensures Subtotal(products, [item]) == LinePrice(products, item)
  {
    SumBySingle(item, LinePriceIn(products));
  }

  /** The worked example: two of a 300000 product ship free; one 100000
      product pays the 20000 fee. */
  lemma CalcTotalExamples(p: Product)
    requires p.price == 300000
    ensures Subtotal([p], [LineItem(p.id, 2)]) == 600000
    ensures Subtotal([p.(price := 100000)], [LineItem(p.id, 1)]) == 100000
  {
    var cheap := p.(price := 100000);
    assert [LineItem(p.id, 2)][..0] == [];
    assert [LineItem(p.id, 1)][..0] == [];
    assert FindProduct([p], p.id) == Some(p) by { FindStep([p], (x: Product) => x.id == p.id); }
    assert FindProduct([cheap], p.id) == Some(cheap) by { FindStep([cheap], (x: Product) => x.id == p.id); }
    SubtotalOfOne([p], LineItem(p.id, 2));
    SubtotalOfOne([cheap], LineItem(p.id, 1));
  }

  // -------------------------------------------------------------- store

  /** The four JSON files, each loaded and saved as a whole sequence. */
  class Store {
    var users: seq<User>
    var sessions: seq<Session>
    var products: seq<Product>
    var orders: seq<Order>

    /** `readJson` of the four files at start-up. */
    constructor Load(users0: seq<User>, sessions0: seq<Session>, products0: seq<Product>, orders0: seq<Order>)
      ensures users == users0 && sessions == sessions0 && products == products0 && orders == orders0
    {
      users, sessions, products, orders := users0, sessions0, products0, orders0;
    }

    /** `POST /api/register`. */
    method Register(name: string, email: string, phone: string, password: string, freshId: string) returns (r: Result<()>)
      modifies this
      ensures sessions == old(sessions) && products == old(products) && orders == old(orders)
      ensures r == Fail(BadRequest) <==> name == "" || email == "" || password == ""
      ensures r == Fail(Conflict) <==> name != "" && email != "" && password != "" && exists u :: u in old(users) && u.email == email
      ensures r.Ok? <==> name != "" && email != "" && password != "" && FindUserByEmail(old(users), email).None?
      ensures r.Fail? ==> users == old(users)
      ensures r.Ok? ==> users == old(users) + [User(freshId, name, email, phone, password, "", None)]
    {
      if name == "" || email == "" || password == "" {
        return Fail(BadRequest);
      }
      if FindUserByEmail(users, email).Some? {
        return Fail(Conflict);
      }
      users := users + [User(freshId, name, email, phone, password, "", None)];
      r := Ok(());
    }

    /** `POST /api/login`. */
    method Login(email: string, phone: string, password: Option<string>, token: string, now: int) returns (r: Result<UserSummary>)
      modifies this
      ensures users == old(users) && products == old(products) && orders == old(orders)
      ensures r.Fail? <==> MatchCredentials(old(users), email, phone, password).None?
      ensures r.Fail? ==> r.error == Unauthorized && sessions == old(sessions)
      ensures r.Ok? ==> var u := MatchCredentials(old(users), email, phone, password).value;
                        r.value == UserSummary(u.id, u.name, u.email)
                        && sessions == old(sessions) + [Session(token, u.id, now)]
    {
      var found := MatchCredentials(users, email, phone, password);
      if found.None? {
        return Fail(Unauthorized);
      }
      var u := found.value;
      sessions := sessions + [Session(token, u.id, now)];
      r := Ok(UserSummary(u.id, u.name, u.email));
    }

    /** The common tail of both federated logins: find the user by email or
        append a password-less one, then open a session for that user. */
    method SignInFederated(email: string, name: string, freshId: string, token: string, now: int) returns (u: User)
      modifies this
      ensures products == old(products) && orders == old(orders)
      ensures u == FederatedUser(old(users), email, name, freshId)
      ensures users == AfterFederated(old(users), email, name, freshId)
      ensures FindUserByEmail(old(users), email).Some? ==> u == FindUserByEmail(old(users), email).value && users == old(users)
      ensures FindUserByEmail(old(users), email).None? ==>
                u == User(freshId, name, email, "", "", "", None) && users == old(users) + [u]
      ensures sessions == old(sessions) + [Session(token, u.id, now)]
    {
      var existing := FindUserByEmail(users, email);
      if existing.Some? {
        u := existing.value;
      } else {
        u := User(freshId, name, email, "", "", "", None);
        users := users + [u];
      }
      sessions := sessions + [Session(token, u.id, now)];
    }

    /** `POST /api/login-google`: `verified` is what Google's token check
        returned for `idToken`. */
    method LoginGoogle(idToken: string, verified: GoogleVerification, freshId: string, token: string, now: int)
      returns (r: Result<UserSummary>)
      modifies this
      ensures products == old(products) && orders == old(orders)
      ensures idToken == "" ==> r == Fail(BadRequest)
      ensures idToken != "" && verified.GoogleFailed? ==> r == Fail(ServerError)
      ensures idToken != "" && verified.GoogleVerified? && verified.email == "" ==> r == Fail(BadRequest)
      ensures r.Fail? ==> users == old(users) && sessions == old(sessions)
      ensures r.Ok? <==> idToken != "" && verified.GoogleVerified? && verified.email != ""
      ensures r.Ok? ==>
                var name := if verified.name != "" then verified.name else LocalPart(verified.email);
                var u := FederatedUser(old(users), verified.email, name, freshId);
                r.value == UserSummary(u.id, u.name, u.email) && r.value.email == verified.email
                && users == AfterFederated(old(users), verified.email, name, freshId)
                && sessions == old(sessions) + [Session(token, u.id, now)]
    {
      if idToken == "" {
        return Fail(BadRequest);
      }
      if verified.GoogleFailed? {
        return Fail(ServerError);
      }
      var email := verified.email;
      var name := if verified.name != "" then verified.name else LocalPart(email);
      if email == "" {
        return Fail(BadRequest);
      }
      var u := SignInFederated(email, name, freshId, token, now);
      r := Ok(UserSummary(u.id, u.name, u.email));
    }

    /** `POST /api/login-facebook`: `reply` is what the Graph API returned
        for `accessToken`. Without an email the user is keyed by
        `<id>@facebook.local`. */
    method LoginFacebook(accessToken: string, reply: GraphReply, freshId: string, token: string, now: int)
      returns (r: Result<UserSummary>)
      modifies this
      ensures products == old(products) && orders == old(orders)
      ensures accessToken == "" ==> r == Fail(BadRequest)
      ensures accessToken != "" && reply.GraphRejected? ==> r == Fail(Unauthorized)
      ensures accessToken != "" && reply.GraphUnreachable? ==> r == Fail(ServerError)
      ensures r.Fail? ==> users == old(users) && sessions == old(sessions)
      ensures r.Ok? <==> accessToken != "" && reply.GraphProfile?
      ensures r.Ok? ==>
                var email := if reply.email != "" then reply.email else reply.id + FacebookMailDomain;
                var name := if reply.name != "" then reply.name else "Facebook User";
                var u := FederatedUser(old(users), email, name, freshId);
                r.value == UserSummary(u.id, u.name, u.email) && r.value.email == email
                && users == AfterFederated(old(users), email, name, freshId)
                && sessions == old(sessions) + [Session(token, u.id, now)]
    {
      if accessToken == "" {
        return Fail(BadRequest);
      }
      match reply
      case GraphRejected =>
        return Fail(Unauthorized);
      case GraphUnreachable =>
        return Fail(ServerError);
      case GraphProfile(id, profileName, profileEmail) =>
        var email := if profileEmail != "" then profileEmail else id + FacebookMailDomain;
        var name := if profileName != "" then profileName else "Facebook User";
        var u := SignInFederated(email, name, freshId, token, now);
        r := Ok(UserSummary(u.id, u.name, u.email));
    }

    /** `POST /api/logout`: drops every session with the token; never fails. */
    method Logout(token: string)
      modifies this
      ensures users == old(users) && products == old(products) && orders == old(orders)
      ensures sessions == WithoutToken(old(sessions), token)
      ensures GetSession(sessions, token).None?
    {
      sessions := WithoutToken(sessions, token);
      LogoutRevokes(old(sessions), token);
    }

    /** `POST /api/products` (admin). */
    method CreateProduct(token: string, name: string, category: string, price: int, status: string,
                         description: string, freshId: string, now: int) returns (r: Result<Product>)
      modifies this
      ensures users == old(users) && sessions == old(sessions) && orders == old(orders)
      ensures RequireAdmin(old(sessions), old(users), token).Fail? ==>
                r == Fail(RequireAdmin(old(sessions), old(users), token).error) && products == old(products)
      ensures RequireAdmin(old(sessions), old(users), token).Ok? && (name == "" || category == "" || price == 0) ==>
                r == Fail(BadRequest) && products == old(products)
      ensures r.Ok? <==> RequireAdmin(old(sessions), old(users), token).Ok? && name != "" && category != "" && price != 0
      ensures r.Fail? ==> products == old(products)
      ensures r.Ok? ==> r.value == Product(freshId, name, category, price, if status != "" then status else "active",
                                           description, PlaceholderImage, now, None)
                        && products == old(products) + [r.value]
    {
      var gate := RequireAdmin(sessions, users, token);
      if gate.Fail? {
        return Fail(gate.error);
      }
      if name == "" || category == "" || price == 0 {
        return Fail(BadRequest);
      }
      var product := Product(freshId, name, category, price, if status != "" then status else "active",
                             description, PlaceholderImage, now, None);
      products := products + [product];
      r := Ok(product);
    }

    /** `PUT /api/products/:id` (admin): empty name, category, status or a
        zero price keep the stored value; a present description (even empty)
        replaces it. The first product with the id is the one changed. */
    method UpdateProduct(token: string, id: string, name: string, category: string, price: int, status: string,
                         description: Option<string>, now: int) returns (r: Result<Product>)
      modifies this
      ensures users == old(users) && sessions == old(sessions) && orders == old(orders)
      ensures RequireAdmin(old(sessions), old(users), token).Fail? ==>
                r == Fail(RequireAdmin(old(sessions), old(users), token).error) && products == old(products)
      ensures RequireAdmin(old(sessions), old(users), token).Ok? && ProductIndex(old(products), id).None? ==>
                r == Fail(NotFound) && products == old(products)
      ensures r.Ok? <==> RequireAdmin(old(sessions), old(users), token).Ok? && ProductIndex(old(products), id).Some?
      ensures r.Fail? ==> products == old(products)
      ensures r.Ok? ==>
                var i := ProductIndex(old(products), id).value;
                var was := old(products)[i];
                products == old(products)[i := r.value]
                && r.value.id == was.id && r.value.image == was.image && r.value.createdAt == was.createdAt
                && r.value.name == (if name != "" then name else was.name)
                && r.value.category == (if category != "" then category else was.category)
                && r.value.price == (if price != 0 then price else was.price)
                && r.value.status == (if status != "" then status else was.status)
                && r.value.description == (if description.Some? then description.value else was.description)
                && r.value.updatedAt == Some(now)
    {
      var gate := RequireAdmin(sessions, users, token);
      if gate.Fail? {
        return Fail(gate.error);
      }
      var k := ProductIndex(products, id);
      if k.None? {
        return Fail(NotFound);
      }
      var i := k.value;
      var was := products[i];
      var updated := was.(
        name := if name != "" then name else was.name,
        category := if category != "" then category else was.category,
        price := if price != 0 then price else was.price,
        status := if status != "" then status else was.status,
        description := if description.Some? then description.value else was.description,
        updatedAt := Some(now));
      products := products[i := updated];
      r := Ok(updated);
    }

    /** `DELETE /api/products/:id` (admin). */
    method DeleteProduct(token: string, id: string) returns (r: Result<()>)
      modifies this
      ensures users == old(users) && sessions == old(sessions) && orders == old(orders)
      ensures RequireAdmin(old(sessions), old(users), token).Fail? ==>
                r == Fail(RequireAdmin(old(sessions), old(users), token).error) && products == old(products)
      ensures RequireAdmin(old(sessions), old(users), token).Ok? ==>
                (r == Fail(NotFound) <==> forall i :: 0 <= i < |old(products)| ==> old(products)[i].id != id)
      ensures r.Ok? <==> RequireAdmin(old(sessions), old(users), token).Ok?
                         && exists i :: 0 <= i < |old(products)| && old(products)[i].id == id
      ensures r.Fail? ==> products == old(products)
      ensures r.Ok? ==> products == WithoutProduct(old(products), id) && |products| < |old(products)|
    {
      var gate := RequireAdmin(sessions, users, token);
      if gate.Fail? {
        return Fail(gate.error);
      }
      var kept := WithoutProduct(products, id);
      if |kept| == |products| {
        return Fail(NotFound);
      }
      products := kept;
      r := Ok(());
    }

    /** `GET /api/orders` (staff or admin). */
    method ListOrders(token: string) returns (r: Result<seq<Order>>)
      ensures r.Fail? <==> RequireStaff(sessions, users, token).Fail?
      ensures r.Fail? ==> r.error == RequireStaff(sessions, users, token).error
      ensures r.Ok? ==> r.value == orders
    {
      var gate := RequireStaff(sessions, users, token);
      if gate.Fail? {
        return Fail(gate.error);
      }
      r := Ok(orders);
    }

    /** `POST /api/orders` (any signed-in user): an absent item list or a zero
        total is refused, an empty item list is not. The total is stored as
        sent; nothing recomputes it. */
    method CreateOrder(token: string, items: Option<seq<LineItem>>, total: int, customerName: string,
                       note: string, address: string, freshId: string, now: int) returns (r: Result<Order>)
      modifies this
      ensures users == old(users) && sessions == old(sessions) && products == old(products)
      ensures RequireAuth(old(sessions), token).Fail? ==> r == Fail(Unauthorized)
      ensures RequireAuth(old(sessions), token).Ok? ==> (r == Fail(BadRequest) <==> items.None? || total == 0)
      ensures r.Ok? <==> RequireAuth(old(sessions), token).Ok? && items.Some? && total != 0
      ensures r.Fail? ==> orders == old(orders)
      ensures r.Ok? ==> r.value.status == Pending && r.value.items == items.value && r.value.total == total
                        && r.value.customerName == (if customerName != "" then customerName else WalkInCustomer)
                        && r.value == Order(freshId, items.value, total, r.value.customerName, note, address, Pending, now, None)
                        && orders == old(orders) + [r.value]
    {
      var gate := RequireAuth(sessions, token);
      if gate.Fail? {
        return Fail(gate.error);
      }
      if items.None? || total == 0 {
        return Fail(BadRequest);
      }
      var order := Order(freshId, items.value, total, if customerName != "" then customerName else WalkInCustomer,
                         note, address, Pending, now, None);
      orders := orders + [order];
      r := Ok(order);
    }

    /** `PUT /api/orders/:id` (staff or admin): the status is stored as sent,
        without any check of the transition; an empty status keeps the old
        one. */
    method UpdateOrder(token: string, id: string, status: string, now: int) returns (r: Result<Order>)
      modifies this
      ensures users == old(users) && sessions == old(sessions) && products == old(products)
      ensures RequireStaff(old(sessions), old(users), token).Fail? ==>
                r == Fail(RequireStaff(old(sessions), old(users), token).error) && orders == old(orders)
      ensures RequireStaff(old(sessions), old(users), token).Ok? ==>
                (r == Fail(NotFound) <==> forall i :: 0 <= i < |old(orders)| ==> old(orders)[i].id != id)
      ensures r.Ok? <==> RequireStaff(old(sessions), old(users), token).Ok? && OrderIndex(old(orders), id).Some?
      ensures r.Fail? ==> orders == old(orders)
      ensures r.Ok? ==>
                var i := OrderIndex(old(orders), id).value;
                orders == old(orders)[i := r.value]
                && r.value == old(orders)[i].(status := if status != "" then status else old(orders)[i].status,
                                              updatedAt := Some(now))
    {
      var gate := RequireStaff(sessions, users, token);
      if gate.Fail? {
        return Fail(gate.error);
      }
      var k := OrderIndex(orders, id);
      if k.None? {
        return Fail(NotFound);
      }
      var i := k.value;
      var updated := orders[i].(status := if status != "" then status else orders[i].status, updatedAt := Some(now));
      orders := orders[i := updated];
      r := Ok(updated);
    }

    /** `GET /api/users` (admin): every user, without passwords. */
    method ListUsers(token: string) returns (r: Result<seq<UserView>>)
      ensures r.Fail? <==> RequireAdmin(sessions, users, token).Fail?
      ensures r.Fail? ==> r.error == RequireAdmin(sessions, users, token).error
      ensures r.Ok? ==> |r.value| == |users| && forall i :: 0 <= i < |users| ==> r.value[i] == PublicView(users[i])
    {
      var gate := RequireAdmin(sessions, users, token);
      if gate.Fail? {
        return Fail(gate.error);
      }
      var all := users;
      r := Ok(seq(|all|, i requires 0 <= i < |all| => PublicView(all[i])));
    }

    /** `DELETE /api/users/:id` (admin). Sessions and orders of the user are
        left in place. */
    method DeleteUser(token: string, id: string) returns (r: Result<()>)
      modifies this
      ensures sessions == old(sessions) && products == old(products) && orders == old(orders)
      ensures RequireAdmin(old(sessions), old(users), token).Fail? ==>
                r == Fail(RequireAdmin(old(sessions), old(users), token).error) && users == old(users)
      ensures RequireAdmin(old(sessions), old(users), token).Ok? ==>
                (r == Fail(NotFound) <==> forall i :: 0 <= i < |old(users)| ==> old(users)[i].id != id)
      ensures r.Ok? <==> RequireAdmin(old(sessions), old(users), token).Ok?
                         && exists i :: 0 <= i < |old(users)| && old(users)[i].id == id
      ensures r.Fail? ==> users == old(users)
      ensures r.Ok? ==> users == WithoutUser(old(users), id) && |users| < |old(users)|
    {
      var gate := RequireAdmin(sessions, users, token);
      if gate.Fail? {
        return Fail(gate.error);
      }
      var kept := WithoutUser(users, id);
      if |kept| == |users| {
        return Fail(NotFound);
      }
      users := kept;
      r := Ok(());
    }

    /** `GET /api/admin/data` (admin). */
    method AdminData(token: string) returns (r: Result<Dashboard>)
      ensures r.Fail? <==> RequireAdmin(sessions, users, token).Fail?
      ensures r.Fail? ==> r.error == RequireAdmin(sessions, users, token).error
      ensures r.Ok? ==> r.value.totalRevenue == EarnedSum(orders)
      ensures r.Ok? ==> r.value.orderCount == |orders| && r.value.productCount == |products| && r.value.userCount == |users|
    {
      var gate := RequireAdmin(sessions, users, token);
      if gate.Fail? {
        return Fail(gate.error);
      }
      RevenueIsEarnedSum(orders);
      r := Ok(Dashboard(Revenue(orders), |orders|, |products|, |users|));
    }

    /** `POST /api/calc-total`: the subtotal of the lines at today's prices,
        shipping free strictly above 500000 and 20000 otherwise. */
    method CalcTotal(items: seq<LineItem>) returns (q: Quote)
      ensures q.subtotal == Subtotal(products, items)
      ensures q.shipping == 0 <==> q.subtotal > FreeShippingAbove
      ensures q.shipping == 0 || q.shipping == ShippingFee
      ensures q.total == q.subtotal + q.shipping
    {
      var subtotal := 0;
      for i := 0 to |items|
        invariant subtotal == Subtotal(products, items[..i])
      {
        assert items[..i + 1][..i] == items[..i];
        var p := FindProduct(products, items[i].productId);
        if p.Some? {
          subtotal := subtotal + p.value.price * (if items[i].quantity == 0 then 1 else items[i].quantity);
        }
      }
      assert items[..|items|] == items;
      var shipping := if subtotal > FreeShippingAbove then 0 else ShippingFee;
      q := Quote(subtotal, shipping, subtotal + shipping);
    }
  }
}
