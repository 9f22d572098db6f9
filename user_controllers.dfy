/**
 * The account and connection handlers: sign-up, login, user lookup, and the
 * two-step connection handshake (request, then accept) that moves a pair of
 * users from "pending" to "connected".
 *
 * Each handler is a method taking the store, whose contract gives its status code
 * by a status function and its new user collection by a transition function;
 * the lemmas below relate those functions across several calls.
 */
module UserControllers {
  import opened Records
  import opened Store

  /** The lookup by email finds a document. */
  predicate EmailTaken(users: map<UserId, User>, email: string) {
    exists id :: id in users && users[id].email == email
  }

  /** The document sign-up builds: the default profile and empty reference lists. */
  function NewUser(name: string, email: string, digest: string): (u: User)
    ensures u.name == name && u.email == email && u.password == digest
    ensures u.age == 18 && u.gender == "Male" && u.images == [""]
    ensures u.posts == [] && u.peopleConnected == [] && u.pendingRequest == [] && u.incomingRequest == []
  {
    User(name, email, digest, 18, "Male", [""], [], [], [], [])
  }

  // ---------------------------------------------------------------- sign-up

  /** 422 for a taken email, 500 when the new document fails validation on save, 201 otherwise. */
  function SignUpStatus(users: map<UserId, User>, name: string, email: string): (code: int)
    ensures code == 422 <==> EmailTaken(users, email)
    ensures code == 500 <==> !EmailTaken(users, email) && (name == "" || email == "")
    ensures code == 201 <==> !EmailTaken(users, email) && name != "" && email != ""
  {
    if EmailTaken(users, email) then 422
    else if !UserSchemaOk(NewUser(name, email, "")) then 500
    else 201
  }

  /** Once an email is registered, every later sign-up with it is refused. */
  lemma SignUpTwiceRejected(users: map<UserId, User>, id: UserId, name: string, email: string, digest: string, name': string)
    ensures SignUpStatus(users[id := NewUser(name, email, digest)], name', email) == 422
  {
    assert users[id := NewUser(name, email, digest)][id].email == email;
  }

  /** A document with a fresh identifier and empty reference lists breaks no link between documents. */
  lemma NewUserKeepsLinks(users: map<UserId, User>, posts: map<PostId, Post>, next: nat, u: User)
    requires Consistent(users, posts, next)
    requires u.posts == [] && u.peopleConnected == [] && u.pendingRequest == [] && u.incomingRequest == []
    ensures ConnectionsSymmetric(users[next := u]) && RequestsMirrored(users[next := u])
    ensures PostsLinked(users[next := u], posts)
  {
    FreshIdUnused(users, posts, next);
    NewUserKeepsConnections(users, next, u);
    NewUserKeepsRequests(users, next, u);
  }

  lemma NewUserKeepsConnections(users: map<UserId, User>, next: nat, u: User)
    requires ConnectionsSymmetric(users) && next !in users
    requires forall id :: id in users ==> next !in users[id].peopleConnected
    requires u.peopleConnected == []
    ensures ConnectionsSymmetric(users[next := u])
  {
  }

  lemma NewUserKeepsRequests(users: map<UserId, User>, next: nat, u: User)
    requires RequestsMirrored(users) && next !in users
    requires forall id :: id in users ==> next !in users[id].pendingRequest && next !in users[id].incomingRequest
    requires u.pendingRequest == [] && u.incomingRequest == []
    ensures RequestsMirrored(users[next := u])
  {
  }

  /** A successful sign-up keeps the store consistent when the new document gets a fresh identifier. */
  lemma SignUpKeepsConsistent(users: map<UserId, User>, posts: map<PostId, Post>, next: nat,
                              name: string, email: string, digest: string)
    requires Consistent(users, posts, next)
    requires SignUpStatus(users, name, email) == 201
    ensures Consistent(users[next := NewUser(name, email, digest)], posts, next + 1)
  {
    NewUserKeepsLinks(users, posts, next, NewUser(name, email, digest));
  }

  method SignUp(db: Db, name: string, email: string, password: string) returns (code: int, reply: Option<AuthReply>)
    requires db.Valid()
    modifies db
    ensures db.Valid()
    ensures code == SignUpStatus(old(db.users), name, email)
    ensures db.posts == old(db.posts)
    ensures code != 201 ==> reply == None && db.users == old(db.users)
    ensures code == 201 ==>
      var id := old(db.nextId);
      && id !in old(db.users)
      && db.users == old(db.users)[id := NewUser(name, email, db.hash(password))]
      && reply == Some(AuthReply(id, email, Token(id, email)))
  {
    if EmailTaken(db.users, email) {
      return 422, None;
    }
    var digest := db.hash(password);
    FreshIdUnused(db.users, db.posts, db.nextId);
    var id := db.FreshId();
    var user := NewUser(name, email, digest);
    if !UserSchemaOk(user) {
      return 500, None;
    }
    SignUpKeepsConsistent(db.users, db.posts, id, name, email, digest);
    db.users := db.users[id := user];
    code, reply := 201, Some(AuthReply(id, email, Token(id, email)));
  }

  // ------------------------------------------------------------------ login

  /** Changes nothing: 403 for an unknown email, 500 for a wrong password, 200 and a token otherwise. */
  method Login(db: Db, email: string, password: string) returns (code: int, reply: Option<AuthReply>)
    requires db.Valid()
    ensures !EmailTaken(db.users, email) ==> code == 403 && reply == None
    ensures forall id :: id in db.users && db.users[id].email == email ==>
      if db.hash(password) == db.users[id].password
      then code == 200 && reply == Some(AuthReply(id, email, Token(id, email)))
      else code == 500 && reply == None
  {
    if !EmailTaken(db.users, email) {
      return 403, None;
    }
    var id :| id in db.users && db.users[id].email == email;
    if db.hash(password) != db.users[id].password {
      return 500, None;
    }
    code, reply := 200, Some(AuthReply(id, email, Token(id, email)));
  }

  /** Signing up and then logging in with the same credentials issues a token for the new account. */
  method SignUpThenLogin(db: Db, name: string, email: string, password: string)
    returns (signUpCode: int, loginCode: int, loginReply: Option<AuthReply>)
    requires db.Valid()
    modifies db
    ensures db.Valid()
    ensures signUpCode == SignUpStatus(old(db.users), name, email)
    ensures signUpCode == 201 ==>
      var id := old(db.nextId);
      loginCode == 200 && loginReply == Some(AuthReply(id, email, Token(id, email)))
  {
    var reply;
    signUpCode, reply := SignUp(db, name, email, password);
    if signUpCode == 201 {
      ghost var id := old(db.nextId);
      assert id in db.users && db.users[id].email == email;
    }
    loginCode, loginReply := Login(db, email, password);
  }

  // ---------------------------------------------------------------- lookup

  /** Changes nothing; a missing user is answered with 500. */
  method GetUserById(db: Db, id: UserId) returns (code: int, user: Option<User>)
    ensures id in db.users ==> code == 200 && user == Some(db.users[id])
    ensures id !in db.users ==> code == 500 && user == None
  {
    if id !in db.users {
      return 500, None;
    }
    code, user := 200, Some(db.users[id]);
  }

  // ------------------------------------------------------ connection request

  /** 404 when either user is missing, 500 when already connected or already requested, 200 otherwise. */
  function RequestConnectStatus(users: map<UserId, User>, requester: UserId, target: UserId): (code: int)
    ensures code == 404 <==> requester !in users || target !in users
    ensures code == 500 <==>
      requester in users && target in users &&
      (target in users[requester].peopleConnected || target in users[requester].pendingRequest)
    ensures code == 200 <==>
      requester in users && target in users &&
      target !in users[requester].peopleConnected && target !in users[requester].pendingRequest
  {
    if requester !in users || target !in users then 404
    else if target in users[requester].peopleConnected then 500
    else if target in users[requester].pendingRequest then 500
    else 200
  }

  /** The user collection after a successful request: one entry on each side, nothing else. */
  function Requested(users: map<UserId, User>, requester: UserId, target: UserId): (r: map<UserId, User>)
    requires requester in users && target in users
    ensures r.Keys == users.Keys
    ensures r[target].incomingRequest == users[target].incomingRequest + [requester]
    ensures r[requester].pendingRequest == users[requester].pendingRequest + [target]
    ensures forall id :: id in users && id != target ==> r[id].incomingRequest == users[id].incomingRequest
    ensures forall id :: id in users && id != requester ==> r[id].pendingRequest == users[id].pendingRequest
    ensures forall id :: id in users ==>
      r[id].(incomingRequest := users[id].incomingRequest, pendingRequest := users[id].pendingRequest) == users[id]
  {
    var users' := users[target := users[target].(incomingRequest := users[target].incomingRequest + [requester])];
    users'[requester := users'[requester].(pendingRequest := users'[requester].pendingRequest + [target])]
  }

  /** A request adds one pending entry and its matching incoming entry. */
  lemma RequestKeepsMirrored(users: map<UserId, User>, requester: UserId, target: UserId)
    requires RequestsMirrored(users)
    requires requester in users && target in users
    ensures RequestsMirrored(Requested(users, requester, target))
  {
    var r := Requested(users, requester, target);
    forall a, b | a in r && b in r[a].pendingRequest
      ensures b in r && a in r[b].incomingRequest
    {
      if a != requester || b != target {
        assert b in users[a].pendingRequest;
      }
    }
    forall a, b | a in r && b in r[a].incomingRequest
      ensures b in r && a in r[b].pendingRequest
    {
      if a != target || b != requester {
        assert b in users[a].incomingRequest;
      }
    }
  }

  lemma RequestKeepsConsistent(users: map<UserId, User>, posts: map<PostId, Post>, next: nat,
                               requester: UserId, target: UserId)
    requires Consistent(users, posts, next)
    requires requester in users && target in users
    ensures Consistent(Requested(users, requester, target), posts, next)
  {
    var r := Requested(users, requester, target);
    ProfilesKeptConsistent(users, r, posts, next);
    RequestKeepsMirrored(users, requester, target);
    assert ConnectionsSymmetric(r) by {
      forall id | id in users ensures r[id].peopleConnected == users[id].peopleConnected {
      }
    }
  }

  method RequestConnect(db: Db, requester: UserId, target: UserId) returns (code: int)
    requires db.Valid()
    modifies db
    ensures db.Valid()
    ensures code == RequestConnectStatus(old(db.users), requester, target)
    ensures db.users == if code == 200 then Requested(old(db.users), requester, target) else old(db.users)
    ensures db.posts == old(db.posts) && db.nextId == old(db.nextId)
  {
    if requester !in db.users {
      return 404;
    }
    var thisUser := db.users[requester];
    if target !in db.users {
      return 404;
    }
    if target in thisUser.peopleConnected {
      return 500;
    }
    if target in thisUser.pendingRequest {
      return 500;
    }
    ghost var before := db.users;
    RequestKeepsConsistent(before, db.posts, db.nextId, requester, target);
    // the transaction: each save appends its pushed element to the stored array
    var stored := db.users[target];
    db.users := db.users[target := stored.(incomingRequest := stored.incomingRequest + [requester])];
    stored := db.users[requester];
    db.users := db.users[requester := stored.(pendingRequest := stored.pendingRequest + [target])];
    assert db.users == Requested(before, requester, target);
    code := 200;
  }

  // ------------------------------------------------------- connection accept

  /**
   * 500 when the accepter is missing (the lookup result is dereferenced inside
   * the guarded block), 404 when the other user is missing, 500 when already
   * connected, 200 otherwise. Whether a request is pending is not checked.
   */
  function AcceptConnectStatus(users: map<UserId, User>, accepter: UserId, other: UserId): (code: int)
    ensures code == 404 <==> accepter in users && other !in users
    ensures code == 500 <==> accepter !in users || (other in users && other in users[accepter].peopleConnected)
    ensures code == 200 <==> accepter in users && other in users && other !in users[accepter].peopleConnected
  {
    if accepter !in users then 500
    else if other !in users then 404
    else if other in users[accepter].peopleConnected then 500
    else 200
  }

  /**
   * The user collection after a successful accept: every occurrence of the
   * accepter leaves the other's pending list, every occurrence of the other
   * leaves the accepter's incoming list, each is appended to the other's
   * connections, and nothing else changes.
   */
  function Accepted(users: map<UserId, User>, accepter: UserId, other: UserId): (r: map<UserId, User>)
    requires accepter in users && other in users
    ensures r.Keys == users.Keys
    ensures r[other].pendingRequest == Pull(users[other].pendingRequest, accepter)
    ensures r[accepter].incomingRequest == Pull(users[accepter].incomingRequest, other)
    ensures other != accepter ==>
      && r[other].peopleConnected == users[other].peopleConnected + [accepter]
      && r[accepter].peopleConnected == users[accepter].peopleConnected + [other]
    ensures other == accepter ==> r[other].peopleConnected == users[other].peopleConnected + [other, other]
    ensures forall id :: id in users && id != other ==> r[id].pendingRequest == users[id].pendingRequest
    ensures forall id :: id in users && id != accepter ==> r[id].incomingRequest == users[id].incomingRequest
    ensures forall id :: id in users && id != accepter && id != other ==> r[id] == users[id]
    ensures forall id :: id in users ==>
      r[id].(pendingRequest := users[id].pendingRequest, incomingRequest := users[id].incomingRequest,
             peopleConnected := users[id].peopleConnected) == users[id]
  {
    var users' := users[other := users[other].(
      pendingRequest := Pull(users[other].pendingRequest, accepter),
      peopleConnected := users[other].peopleConnected + [accepter])];
    users'[accepter := users'[accepter].(
      incomingRequest := Pull(users'[accepter].incomingRequest, other),
      peopleConnected := users'[accepter].peopleConnected + [other])]
  }

  /** An accept records the connection on both sides. */
  lemma AcceptKeepsSymmetric(users: map<UserId, User>, accepter: UserId, other: UserId)
    requires ConnectionsSymmetric(users)
    requires accepter in users && other in users
    ensures ConnectionsSymmetric(Accepted(users, accepter, other))
  {
  }

  /** An accept removes the request A to B from both of its sides and touches no other request. */
  lemma AcceptKeepsMirrored(users: map<UserId, User>, accepter: UserId, other: UserId)
    requires RequestsMirrored(users)
    requires accepter in users && other in users
    ensures RequestsMirrored(Accepted(users, accepter, other))
  {
  }

  lemma AcceptKeepsConsistent(users: map<UserId, User>, posts: map<PostId, Post>, next: nat,
                              accepter: UserId, other: UserId)
    requires Consistent(users, posts, next)
    requires accepter in users && other in users
    ensures Consistent(Accepted(users, accepter, other), posts, next)
  {
    var r := Accepted(users, accepter, other);
    ProfilesKeptConsistent(users, r, posts, next);
    AcceptKeepsSymmetric(users, accepter, other);
    AcceptKeepsMirrored(users, accepter, other);
  }

  method AcceptConnect(db: Db, accepter: UserId, other: UserId) returns (code: int)
    requires db.Valid()
    modifies db
    ensures db.Valid()
    ensures code == AcceptConnectStatus(old(db.users), accepter, other)
    ensures db.users == if code == 200 then Accepted(old(db.users), accepter, other) else old(db.users)
    ensures db.posts == old(db.posts) && db.nextId == old(db.nextId)
  {
    if accepter !in db.users {
      return 500;
    }
    var thisUser := db.users[accepter];
    if other !in db.users {
      return 404;
    }
    if other in thisUser.peopleConnected {
      return 500;
    }
    ghost var before := db.users;
    AcceptKeepsConsistent(before, db.posts, db.nextId, accepter, other);
    // the transaction: the other user's document is saved first, then the accepter's
    var stored := db.users[other];
    db.users := db.users[other := stored.(
      pendingRequest := Pull(stored.pendingRequest, accepter),
      peopleConnected := stored.peopleConnected + [accepter])];
    stored := db.users[accepter];
    db.users := db.users[accepter := stored.(
      incomingRequest := Pull(stored.incomingRequest, other),
      peopleConnected := stored.peopleConnected + [other])];
    assert db.users == Accepted(before, accepter, other);
    code := 200;
  }

  // ------------------------------------------------------------ handshake

  /**
   * A request from `a` to `b` that succeeds, followed by `b` accepting `a`:
   * the accept passes its guard, afterwards each lists the other as
   * connected, the request has left both sides' lists, and a repeated request
   * in either direction is refused as already connected.
   */
  lemma RequestThenAccept(users: map<UserId, User>, a: UserId, b: UserId)
    requires ConnectionsSymmetric(users)
    requires RequestConnectStatus(users, a, b) == 200
    ensures var r1 := Requested(users, a, b);
      && AcceptConnectStatus(r1, b, a) == 200
      && var r2 := Accepted(r1, b, a);
      && b in r2[a].peopleConnected && a in r2[b].peopleConnected
      && a !in r2[b].incomingRequest && b !in r2[a].pendingRequest
      && RequestConnectStatus(r2, a, b) == 500 && RequestConnectStatus(r2, b, a) == 500
  {
  }

  /** A second identical request after a successful one is refused as already requested. */
  lemma RequestTwiceRejected(users: map<UserId, User>, a: UserId, b: UserId)
    requires RequestConnectStatus(users, a, b) == 200
    ensures RequestConnectStatus(Requested(users, a, b), a, b) == 500
  {
  }
}
