/**
 * The post handlers: create, vote, edit, delete and search by tag. Creating
 * and deleting touch two documents (the post and its owner's `posts` list)
 * in one transaction; edit and delete are allowed to the owner only.
 *
 * Each state-changing handler is a method taking the store, whose contract gives
 * its status code by a status function and its new state by a transition
 * function; the lemmas below relate those functions across several calls.
 */
module PostControllers {
  import opened Records
  import opened Store

  /** The document create builds: the given content, a zeroed tally, the requester as owner. */
  function NewPost(owner: UserId, title: string, text: string, tags: seq<string>): (p: Post)
    ensures p.userOwner == owner && p.title == title && p.text == text && p.tags == tags
    ensures p.votes.upvote == 0 && p.votes.downvote == 0
  {
    Post(owner, title, text, tags, Votes(0, 0))
  }

  /** The owner's document after `posts.push(id)`. */
  function LinkPost(users: map<UserId, User>, owner: UserId, id: PostId): (r: map<UserId, User>)
    requires owner in users
    ensures r.Keys == users.Keys
    ensures r[owner].posts == users[owner].posts + [id]
    ensures r[owner].(posts := users[owner].posts) == users[owner]
    ensures forall u :: u in users && u != owner ==> r[u] == users[u]
  {
    users[owner := users[owner].(posts := users[owner].posts + [id])]
  }

  /** The owner's document after `posts.pull(id)`. */
  function UnlinkPost(users: map<UserId, User>, owner: UserId, id: PostId): (r: map<UserId, User>)
    requires owner in users
    ensures r.Keys == users.Keys
    ensures id !in r[owner].posts
    ensures forall p :: p in r[owner].posts <==> p in users[owner].posts && p != id
    ensures multiset(r[owner].posts) == multiset(users[owner].posts)[id := 0]
    ensures r[owner].(posts := users[owner].posts) == users[owner]
    ensures forall u :: u in users && u != owner ==> r[u] == users[u]
  {
    PullMultiset(users[owner].posts, id);
    users[owner := users[owner].(posts := Pull(users[owner].posts, id))]
  }

  /** Unlinking a post that linking just added gives the user collection back. */
  lemma UnlinkAfterLink(users: map<UserId, User>, owner: UserId, id: PostId)
    requires owner in users && id !in users[owner].posts
    ensures UnlinkPost(LinkPost(users, owner, id), owner, id) == users
  {
    PullAfterPush(users[owner].posts, id);
    assert UnlinkPost(LinkPost(users, owner, id), owner, id)[owner] == users[owner];
  }

  // ----------------------------------------------------------------- create

  /** 404 when the requester is missing or the new document fails validation on save, 201 otherwise. */
  function CreatePostStatus(users: map<UserId, User>, requester: UserId, title: string, text: string, tags: seq<string>): (code: int)
    ensures code == 201 <==>
      requester in users && title != "" && text != "" && forall t :: t in tags ==> t != ""
    ensures code != 201 ==> code == 404
  {
    if requester !in users then 404
    else if !PostSchemaOk(NewPost(requester, title, text, tags)) then 404
    else 201
  }

  /** The new post and its owner's list refer to each other; every other link is kept. */
  lemma CreateKeepsLinks(users: map<UserId, User>, posts: map<PostId, Post>, next: nat, post: Post)
    requires Consistent(users, posts, next)
    requires post.userOwner in users
    ensures PostsLinked(LinkPost(users, post.userOwner, next), posts[next := post])
  {
    FreshIdUnused(users, posts, next);
    CreateKeepsOwners(users, posts, next, post);
    CreateKeepsListed(users, posts, next, post);
  }

  lemma CreateKeepsOwners(users: map<UserId, User>, posts: map<PostId, Post>, next: nat, post: Post)
    requires PostsLinked(users, posts) && next !in posts
    requires post.userOwner in users
    ensures var users', posts' := LinkPost(users, post.userOwner, next), posts[next := post];
      forall p :: p in posts' ==> posts'[p].userOwner in users' && p in users'[posts'[p].userOwner].posts
  {
  }

  lemma CreateKeepsListed(users: map<UserId, User>, posts: map<PostId, Post>, next: nat, post: Post)
    requires PostsLinked(users, posts) && forall u :: u in users ==> next !in users[u].posts
    requires post.userOwner in users
    ensures var users', posts' := LinkPost(users, post.userOwner, next), posts[next := post];
      forall u, p :: u in users' && p in users'[u].posts ==> p in posts' && posts'[p].userOwner == u
  {
  }

  lemma CreateKeepsConsistent(users: map<UserId, User>, posts: map<PostId, Post>, next: nat,
                              requester: UserId, title: string, text: string, tags: seq<string>)
    requires Consistent(users, posts, next)
    requires CreatePostStatus(users, requester, title, text, tags) == 201
    ensures Consistent(LinkPost(users, requester, next), posts[next := NewPost(requester, title, text, tags)], next + 1)
  {
    var post := NewPost(requester, title, text, tags);
    RelationsKeptConsistent(users, LinkPost(users, requester, next));
    CreateKeepsLinks(users, posts, next, post);
  }

  method CreatePost(db: Db, requester: UserId, title: string, text: string, tags: seq<string>)
    returns (code: int, created: Option<PostId>)
    requires db.Valid()
    modifies db
    ensures db.Valid()
    ensures code == CreatePostStatus(old(db.users), requester, title, text, tags)
    ensures code != 201 ==> created == None && db.users == old(db.users) && db.posts == old(db.posts)
    ensures code == 201 ==>
      var id := old(db.nextId);
      && created == Some(id)
      && id !in old(db.posts) && id !in old(db.users)[requester].posts
      && db.posts == old(db.posts)[id := NewPost(requester, title, text, tags)]
      && db.users == LinkPost(old(db.users), requester, id)
  {
    if requester !in db.users {
      return 404, None;
    }
    FreshIdUnused(db.users, db.posts, db.nextId);
    var id := db.FreshId();
    var post := NewPost(requester, title, text, tags);
    if !PostSchemaOk(post) {
      return 404, None;
    }
    CreateKeepsConsistent(db.users, db.posts, id, requester, title, text, tags);
    // the transaction: save the post, then push its identifier onto the owner's list
    db.posts := db.posts[id := post];
    var owner := db.users[requester];
    db.users := db.users[requester := owner.(posts := owner.posts + [id])];
    code, created := 201, Some(id);
  }

  // ------------------------------------------------------------------- vote

  /** 500 when the post is missing, 200 otherwise. */
  function VotePostStatus(posts: map<PostId, Post>, id: PostId): (code: int)
    ensures code == 200 <==> id in posts
    ensures code != 200 ==> code == 500
  {
    if id !in posts then 500 else 200
  }

  /** One vote: "upvote" adds one up-vote, any other vote type one down-vote; nothing else changes. */
  function Voted(p: Post, voteType: string): (r: Post)
    ensures voteType == "upvote" ==> r.votes.upvote == p.votes.upvote + 1 && r.votes.downvote == p.votes.downvote
    ensures voteType != "upvote" ==> r.votes.downvote == p.votes.downvote + 1 && r.votes.upvote == p.votes.upvote
    ensures r.(votes := p.votes) == p
  {
    if voteType == "upvote" then p.(votes := p.votes.(upvote := p.votes.upvote + 1))
    else p.(votes := p.votes.(downvote := p.votes.downvote + 1))
  }

  /** `n` successive votes of the same type on one post. */
  function VotedTimes(p: Post, voteType: string, n: nat): (r: Post) {
    if n == 0 then p else Voted(VotedTimes(p, voteType, n - 1), voteType)
  }

  /** `n` votes of one type move exactly that counter, by exactly `n`. */
  lemma {:induction false} RepeatedVotes(p: Post, voteType: string, n: nat)
    ensures voteType == "upvote" ==>
      VotedTimes(p, voteType, n).votes == Votes(p.votes.upvote + n, p.votes.downvote)
    ensures voteType != "upvote" ==>
      VotedTimes(p, voteType, n).votes == Votes(p.votes.upvote, p.votes.downvote + n)
    ensures VotedTimes(p, voteType, n).(votes := p.votes) == p
  {
    if n > 0 {
      RepeatedVotes(p, voteType, n - 1);
    }
  }

  /** Replacing one post by a document with the same owner, schema-valid, keeps the store consistent. */
  lemma ReplaceKeepsConsistent(users: map<UserId, User>, posts: map<PostId, Post>, next: nat, id: PostId, post: Post)
    requires Consistent(users, posts, next)
    requires id in posts && post.userOwner == posts[id].userOwner && PostSchemaOk(post)
    ensures Consistent(users, posts[id := post], next)
  {
  }

  method VotePost(db: Db, id: PostId, voteType: string) returns (code: int, post: Option<Post>)
    requires db.Valid()
    modifies db
    ensures db.Valid()
    ensures code == VotePostStatus(old(db.posts), id)
    ensures code != 200 ==> post == None && db.posts == old(db.posts)
    ensures code == 200 ==>
      && post == Some(Voted(old(db.posts)[id], voteType))
      && db.posts == old(db.posts)[id := Voted(old(db.posts)[id], voteType)]
    ensures db.users == old(db.users) && db.nextId == old(db.nextId)
  {
    if id !in db.posts {
      return 500, None;
    }
    var p := db.posts[id];
    if voteType == "upvote" {
      p := p.(votes := p.votes.(upvote := p.votes.upvote + 1));
    } else {
      p := p.(votes := p.votes.(downvote := p.votes.downvote + 1));
    }
    ReplaceKeepsConsistent(db.users, db.posts, db.nextId, id, p);
    db.posts := db.posts[id := p];
    code, post := 200, Some(p);
  }

  // ------------------------------------------------------------------- edit

  /** 500 when the post is missing, the requester is not its owner, or the new title or text fails validation. */
  function EditPostStatus(posts: map<PostId, Post>, id: PostId, requester: UserId, title: string, text: string): (code: int)
    ensures code == 200 <==> id in posts && posts[id].userOwner == requester && title != "" && text != ""
    ensures code != 200 ==> code == 500
  {
    if id !in posts then 500
    else if posts[id].userOwner != requester then 500
    else if !(Present(title) && Present(text)) then 500
    else 200
  }

  /** An edit replaces the title and the text and keeps the tags, the tally and the owner. */
  function Edited(p: Post, title: string, text: string): (r: Post)
    ensures r.title == title && r.text == text
    ensures r.tags == p.tags && r.votes == p.votes && r.userOwner == p.userOwner
  {
    p.(title := title, text := text)
  }

  method EditPostById(db: Db, id: PostId, requester: UserId, title: string, text: string)
    returns (code: int, post: Option<Post>)
    requires db.Valid()
    modifies db
    ensures db.Valid()
    ensures code == EditPostStatus(old(db.posts), id, requester, title, text)
    ensures code != 200 ==> post == None && db.posts == old(db.posts)
    ensures code == 200 ==>
      && post == Some(Edited(old(db.posts)[id], title, text))
      && db.posts == old(db.posts)[id := Edited(old(db.posts)[id], title, text)]
    ensures db.users == old(db.users) && db.nextId == old(db.nextId)
  {
    if id !in db.posts {
      return 500, None;
    }
    var p := db.posts[id];
    if p.userOwner != requester {
      return 500, None;
    }
    p := p.(title := title, text := text);
    if !PostSchemaOk(p) {
      return 500, None;
    }
    ReplaceKeepsConsistent(db.users, db.posts, db.nextId, id, p);
    db.posts := db.posts[id := p];
    code, post := 200, Some(p);
  }

  // ----------------------------------------------------------------- delete

  /** 500 when the post is missing or the requester is not its owner, 201 otherwise. */
  function DeletePostStatus(posts: map<PostId, Post>, id: PostId, requester: UserId): (code: int)
    ensures code == 201 <==> id in posts && posts[id].userOwner == requester
    ensures code != 201 ==> code == 500
  {
    if id !in posts then 500
    else if posts[id].userOwner != requester then 500
    else 201
  }

  /** The removed post leaves its owner's list; every other link is kept. */
  lemma DeleteKeepsLinks(users: map<UserId, User>, posts: map<PostId, Post>, next: nat, id: PostId)
    requires Consistent(users, posts, next)
    requires id in posts
    ensures PostsLinked(UnlinkPost(users, posts[id].userOwner, id), posts - {id})
  {
    DeleteKeepsOwners(users, posts, id);
    DeleteKeepsListed(users, posts, id);
  }

  lemma DeleteKeepsOwners(users: map<UserId, User>, posts: map<PostId, Post>, id: PostId)
    requires PostsLinked(users, posts)
    requires id in posts
    ensures var users', posts' := UnlinkPost(users, posts[id].userOwner, id), posts - {id};
      forall p :: p in posts' ==> posts'[p].userOwner in users' && p in users'[posts'[p].userOwner].posts
  {
  }

  lemma DeleteKeepsListed(users: map<UserId, User>, posts: map<PostId, Post>, id: PostId)
    requires PostsLinked(users, posts)
    requires id in posts
    ensures var users', posts' := UnlinkPost(users, posts[id].userOwner, id), posts - {id};
      forall u, p :: u in users' && p in users'[u].posts ==> p in posts' && posts'[p].userOwner == u
  {
  }

  lemma DeleteKeepsConsistent(users: map<UserId, User>, posts: map<PostId, Post>, next: nat, id: PostId)
    requires Consistent(users, posts, next)
    requires id in posts
    ensures Consistent(UnlinkPost(users, posts[id].userOwner, id), posts - {id}, next)
  {
    RelationsKeptConsistent(users, UnlinkPost(users, posts[id].userOwner, id));
    DeleteKeepsLinks(users, posts, next, id);
  }

  method DeletePostById(db: Db, id: PostId, requester: UserId) returns (code: int)
    requires db.Valid()
    modifies db
    ensures db.Valid()
    ensures code == DeletePostStatus(old(db.posts), id, requester)
    ensures code != 201 ==> db.posts == old(db.posts) && db.users == old(db.users)
    ensures code == 201 ==>
      && db.posts == old(db.posts) - {id}
      && db.users == UnlinkPost(old(db.users), requester, id)
    ensures db.nextId == old(db.nextId)
  {
    if id !in db.posts {
      return 500;
    }
    var p := db.posts[id];
    if p.userOwner != requester {
      return 500;
    }
    DeleteKeepsConsistent(db.users, db.posts, db.nextId, id);
    // the transaction: remove the post, then pull its identifier from the owner's list
    db.posts := db.posts - {id};
    var owner := db.users[p.userOwner];
    db.users := db.users[p.userOwner := owner.(posts := Pull(owner.posts, id))];
    code := 201;
  }

  /**
   * Creating a post and then deleting it as its owner: the delete is allowed,
   * and both collections, the owner's `posts` list included, are as before.
   */
  lemma CreateThenDelete(users: map<UserId, User>, posts: map<PostId, Post>, next: nat,
                         owner: UserId, title: string, text: string, tags: seq<string>)
    requires Consistent(users, posts, next)
    requires CreatePostStatus(users, owner, title, text, tags) == 201
    ensures var posts' := posts[next := NewPost(owner, title, text, tags)];
      && DeletePostStatus(posts', next, owner) == 201
      && posts' - {next} == posts
      && UnlinkPost(LinkPost(users, owner, next), owner, next) == users
  {
    FreshIdUnused(users, posts, next);
    UnlinkAfterLink(users, owner, next);
    assert posts[next := NewPost(owner, title, text, tags)] - {next} == posts;
  }

  // ----------------------------------------------------------------- search

  /** Exactly the stored posts whose tag list holds `tag`, unchanged. */
  function GetPostByTag(posts: map<PostId, Post>, tag: string): (r: map<PostId, Post>)
    ensures forall id :: id in r <==> id in posts && tag in posts[id].tags
    ensures forall id :: id in r ==> r[id] == posts[id]
  {
    map id | id in posts && tag in posts[id].tags :: posts[id]
  }

  /** A created post shows up in exactly the searches for its own tags. */
  lemma SearchAfterCreate(posts: map<PostId, Post>, id: PostId, post: Post, tag: string)
    requires id !in posts
    ensures GetPostByTag(posts[id := post], tag) ==
      if tag in post.tags then GetPostByTag(posts, tag)[id := post] else GetPostByTag(posts, tag)
  {
  }

  /** A deleted post drops out of every search, and nothing else does. */
  lemma SearchAfterDelete(posts: map<PostId, Post>, id: PostId, tag: string)
    ensures GetPostByTag(posts - {id}, tag) == GetPostByTag(posts, tag) - {id}
  {
  }

  /** Votes and edits keep the tags, so every search finds the same posts afterwards. */
  lemma SearchAfterVoteOrEdit(posts: map<PostId, Post>, id: PostId, voteType: string, title: string, text: string, tag: string)
    requires id in posts
    ensures GetPostByTag(posts[id := Voted(posts[id], voteType)], tag).Keys == GetPostByTag(posts, tag).Keys
    ensures GetPostByTag(posts[id := Edited(posts[id], title, text)], tag).Keys == GetPostByTag(posts, tag).Keys
  {
  }
}
