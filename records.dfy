/**
 * The two document shapes of the social-networking backend, the token the
 * authentication handlers issue, and the array operations the handlers apply
 * to a document's reference lists (`push` is `+ [x]`, `pull` is Pull).
 */
module Records {

  /** Document identifiers. The store hands out distinct ones (see Store.Db.FreshId). */
  type UserId = nat
  type PostId = nat

  datatype Option<T> = None | Some(value: T)

  /**
   * A user document. `password` holds the digest, never the plain text.
   * `pendingRequest` lists the users this user has asked to connect with;
   * `incomingRequest` lists the users who have asked this user.
   */
  datatype User = User(
    name: string,
    email: string,
    password: string,
    age: int,
    gender: string,
    images: seq<string>,
    posts: seq<PostId>,
    peopleConnected: seq<UserId>,
    pendingRequest: seq<UserId>,
    incomingRequest: seq<UserId>)

  datatype Votes = Votes(upvote: nat, downvote: nat)

  datatype Post = Post(
    userOwner: UserId,
    title: string,
    text: string,
    tags: seq<string>,
    votes: Votes)

  /** The signed credential: only the claims it binds are modelled. */
  datatype Token = Token(userId: UserId, email: string)

  /** The body of a successful sign-up or login reply. */
  datatype AuthReply = AuthReply(userId: UserId, email: string, token: Token)

  /** The document store's `required` validator for a string path rejects the empty string. */
  predicate Present(s: string) {
    s != ""
  }

  /** The `required` string paths `name` and `email` of the user schema; the password rules are left out. */
  predicate UserSchemaOk(u: User) {
    Present(u.name) && Present(u.email)
  }

  /** The string paths of the post schema marked `required`, each tag included. */
  predicate PostSchemaOk(p: Post) {
    Present(p.title) && Present(p.text) && forall t :: t in p.tags ==> Present(t)
  }

  /** Array `pull` on a list of identifiers: removes every occurrence of `x` and keeps the order of the rest. */
  function Pull(s: seq<nat>, x: nat): (r: seq<nat>)
    ensures forall y :: y in r <==> y in s && y != x
    ensures x !in s ==> r == s
    ensures |r| <= |s|
  {
    if s == [] then []
    else if s[0] == x then Pull(s[1..], x)
    else [s[0]] + Pull(s[1..], x)
  }

  /** `pull` drops exactly the occurrences of `x`: every other identifier keeps its number of occurrences. */
  lemma {:induction false} PullMultiset(s: seq<nat>, x: nat)
    ensures multiset(Pull(s, x)) == multiset(s)[x := 0]
  {
    if s != [] {
      assert s == [s[0]] + s[1..];
      PullMultiset(s[1..], x);
    }
  }

  /** Pulling from a concatenation pulls from each part. */
  lemma {:induction false} PullConcat(s: seq<nat>, t: seq<nat>, x: nat)
    ensures Pull(s + t, x) == Pull(s, x) + Pull(t, x)
  {
    if s == [] {
      assert s + t == t;
    } else {
      assert (s + t)[0] == s[0];
      assert (s + t)[1..] == s[1..] + t;
      PullConcat(s[1..], t, x);
    }
  }

  /** Pushing an element the list did not hold and pulling it again gives the list back. */
  lemma {:induction false} PullAfterPush(s: seq<nat>, x: nat)
    requires x !in s
    ensures Pull(s + [x], x) == s
  {
    PullConcat(s, [x], x);
    assert Pull([x], x) == Pull([x][1..], x);
    assert [x][1..] == [];
  }
}
