/**
 * The document store: the user collection and the post collection, the
 * identifier generator, and the password hash the handlers call. Every
 * successful handler is one atomic update of this object.
 */
module Store {
  import opened Records

  /** Every identifier in use was handed out before `next`. */
  ghost predicate IdsBelow(users: map<UserId, User>, posts: map<PostId, Post>, next: nat) {
    && (forall id :: id in users ==> id < next)
    && (forall id :: id in posts ==> id < next)
  }

  /** The user schema's unique index on `email`. */
  ghost predicate EmailsUnique(users: map<UserId, User>) {
    forall a, b :: a in users && b in users && users[a].email == users[b].email ==> a == b
  }

  /** Every stored document passed its schema's `required` validators. */
  ghost predicate SchemaHolds(users: map<UserId, User>, posts: map<PostId, Post>) {
    && (forall id :: id in users ==> UserSchemaOk(users[id]))
    && (forall id :: id in posts ==> PostSchemaOk(posts[id]))
  }

  /** A confirmed connection is recorded on both sides. */
  ghost predicate ConnectionsSymmetric(users: map<UserId, User>) {
    forall a, b :: a in users && b in users[a].peopleConnected ==> b in users && a in users[b].peopleConnected
  }

  /** An unconfirmed request A to B is pending at A exactly when it is incoming at B. */
  ghost predicate RequestsMirrored(users: map<UserId, User>) {
    && (forall a, b :: a in users && b in users[a].pendingRequest ==> b in users && a in users[b].incomingRequest)
    && (forall a, b :: a in users && b in users[a].incomingRequest ==> b in users && a in users[b].pendingRequest)
  }

  /** A post's owner exists and lists it, and a user lists only posts it owns. */
  ghost predicate PostsLinked(users: map<UserId, User>, posts: map<PostId, Post>) {
    && (forall p :: p in posts ==> posts[p].userOwner in users && p in users[posts[p].userOwner].posts)
    && (forall u, p :: u in users && p in users[u].posts ==> p in posts && posts[p].userOwner == u)
  }

  ghost predicate Consistent(users: map<UserId, User>, posts: map<PostId, Post>, next: nat) {
    && IdsBelow(users, posts, next)
    && EmailsUnique(users)
    && SchemaHolds(users, posts)
    && ConnectionsSymmetric(users)
    && RequestsMirrored(users)
    && PostsLinked(users, posts)
  }

  /** Two user collections with the same identifiers whose documents agree on everything but the relationship lists. */
  ghost predicate ProfilesKept(users: map<UserId, User>, users': map<UserId, User>) {
    && users'.Keys == users.Keys
    && forall id :: id in users ==>
         users'[id].name == users[id].name && users'[id].email == users[id].email && users'[id].posts == users[id].posts
  }

  /** Rewriting only the relationship lists keeps every part of the invariant that does not mention them. */
  lemma ProfilesKeptConsistent(users: map<UserId, User>, users': map<UserId, User>, posts: map<PostId, Post>, next: nat)
    requires ProfilesKept(users, users')
    requires IdsBelow(users, posts, next) && EmailsUnique(users) && SchemaHolds(users, posts) && PostsLinked(users, posts)
    ensures IdsBelow(users', posts, next) && EmailsUnique(users') && SchemaHolds(users', posts) && PostsLinked(users', posts)
  {
  }

  /** Two user collections with the same identifiers whose documents agree on everything but the `posts` lists. */
  ghost predicate RelationsKept(users: map<UserId, User>, users': map<UserId, User>) {
    && users'.Keys == users.Keys
    && forall id :: id in users ==>
         && users'[id].name == users[id].name && users'[id].email == users[id].email
         && users'[id].peopleConnected == users[id].peopleConnected
         && users'[id].pendingRequest == users[id].pendingRequest
         && users'[id].incomingRequest == users[id].incomingRequest
  }

  /** Rewriting only the `posts` lists keeps every part of the invariant about users alone. */
  lemma RelationsKeptConsistent(users: map<UserId, User>, users': map<UserId, User>)
    requires RelationsKept(users, users')
    requires EmailsUnique(users) && ConnectionsSymmetric(users) && RequestsMirrored(users)
    requires forall id :: id in users ==> UserSchemaOk(users[id])
    ensures EmailsUnique(users') && ConnectionsSymmetric(users') && RequestsMirrored(users')
    ensures forall id :: id in users' ==> UserSchemaOk(users'[id])
  {
    RelationsKeptProfiles(users, users');
    RelationsKeptRequests(users, users');
  }

  lemma RelationsKeptProfiles(users: map<UserId, User>, users': map<UserId, User>)
    requires RelationsKept(users, users')
    requires EmailsUnique(users) && ConnectionsSymmetric(users)
    requires forall id :: id in users ==> UserSchemaOk(users[id])
    ensures EmailsUnique(users') && ConnectionsSymmetric(users')
    ensures forall id :: id in users' ==> UserSchemaOk(users'[id])
  {
  }

  lemma RelationsKeptRequests(users: map<UserId, User>, users': map<UserId, User>)
    requires RelationsKept(users, users')
    requires RequestsMirrored(users)
    ensures RequestsMirrored(users')
  {
  }

  /** A fresh identifier is neither stored nor referenced from any user's reference lists. */
  lemma FreshIdUnused(users: map<UserId, User>, posts: map<PostId, Post>, next: nat)
    requires Consistent(users, posts, next)
    ensures next !in users && next !in posts
    ensures forall u :: u in users ==> next !in users[u].posts
    ensures forall u :: u in users ==>
      next !in users[u].peopleConnected && next !in users[u].pendingRequest && next !in users[u].incomingRequest
  {
  }

  class Db {
    var users: map<UserId, User>
    var posts: map<PostId, Post>
    /** The identifier generator: the next identifier it will hand out. */
    var nextId: nat
    /** The password hash; checking a password is comparing digests. */
    const hash: string -> string

    ghost predicate Valid()
      reads this
    {
      Consistent(users, posts, nextId)
    }

    constructor (hash: string -> string)
      ensures Valid()
      ensures users == map[] && posts == map[] && nextId == 0 && this.hash == hash
    {
      this.hash := hash;
      users, posts, nextId := map[], map[], 0;
    }

    /** Allocates a document identifier, as constructing a new document does. */
    method FreshId() returns (id: nat)
      requires Valid()
      modifies this`nextId
      ensures Valid()
      ensures id == old(nextId) && nextId == id + 1
    {
      id := nextId;
      nextId := nextId + 1;
    }
  }
}
