# Social-network backend: accounts, connection handshake and posts

This project models the state logic of a small REST backend for a social
network. Users sign up and log in. They form mutual connections through a
two-step handshake: one user requests, the other accepts. They also create,
vote on, edit, delete and search tagged text posts.

The document database becomes the class `Store.Db`, which has these fields:

- a map from user id to user record;
- a map from post id to post record;
- a counter that hands out fresh document ids;
- the password hash.

Each HTTP handler is a module-level method that takes the store as a
parameter and may modify it. A handler runs its guard checks
in the code's order and answers with the code's HTTP status. When it
succeeds, it applies its whole update as one atomic step, which is what the
code's transactions intend. Each method's contract gives its status through a
pure function, such as `RequestConnectStatus`, and its new state through a
pure transition function, such as `Requested`, `Accepted`, `LinkPost` or
`UnlinkPost`. Lemmas about those functions state the properties that span
several calls:

- a request followed by an accept connects both users symmetrically;
- creating a post and then deleting it gives back the owner's `posts` list;
- `n` up-votes raise `upvote` by exactly `n`;
- a second sign-up with the same email is refused.

Every method keeps `Db.Valid()`. That invariant says:

- ids are fresh;
- emails are unique;
- stored documents pass their schema's `required` validators, except the one on `password`;
- connections are recorded on both sides;
- each pending request has a matching incoming entry;
- posts and their owners' `posts` lists point at each other.

Modules: `Records` holds the document shapes and `pull`. `Store` holds the
store and its invariant. `UserControllers` and `PostControllers` each model
one controller file.

The status codes are the ones the controllers actually answer with, including
these:

- "already connected" and "already requested" answer 500, not a conflict status;
- a wrong password at login answers 500;
- a missing post, or a requester who is not the owner, answers 500;
- `getUserById` answers 500 for a missing user.

`acceptConnect` answers 500, not 404, when the accepting user does not exist.
The code calls `.populate` on the result of the lookup inside the guarded
block (controllers/user-controllers.js:210). On a missing user that result is
null, the call throws, and the catch answers 500. So the 404 branch at lines
219-222 is never reached.

The save step checks the schemas' `required` rules: an empty name, email,
title, text or tag makes the save fail. The model uses the status that the
surrounding catch block gives: 500 for edit and 404 for create. The sign-up
catch block sends no status at all; the model answers that case with 500
(see "## Left out").

## Model

| member | source | states |
|---|---|---|
| Records.Pull | controllers/user-controllers.js:253-254 | after array `pull`, the list holds exactly the identifiers it held before other than the value, is no longer than before, and is unchanged when it did not hold the value |
| Records.UserSchemaOk | model/UserAuth.js:5-6 | a user document passes validation exactly when its `name` and `email` are non-empty |
| Records.PostSchemaOk | model/Post.js:6-8 | a post document passes validation exactly when its `title`, its `text` and every tag are non-empty |
| Store.Consistent | model/UserAuth.js:4-13 | the store invariant: ids below the counter, unique emails, valid documents, symmetric connections, mirrored requests, and posts linked to their owners both ways |
| Records.PullMultiset | controllers/user-controllers.js:253-254 | `pull` removes every occurrence of the value and keeps the number of occurrences of every other identifier |
| Records.PullConcat | controllers/post-controllers.js:138 | pulling a value from a concatenation of two lists equals pulling it from each list and concatenating |
| Records.PullAfterPush | controllers/post-controllers.js:138 | pushing a value the list did not hold and then pulling it gives the original list back |
| Store.Db.FreshId | controllers/post-controllers.js:54-63 | a new document gets an id that no stored document has, and the store invariant is kept |
| UserControllers.NewUser | controllers/user-controllers.js:40-51 | a new user has the given name, email and digest, age 18, gender "Male", `images` holding the one empty string (the array path casts the code's `""` to `[""]`), and empty `posts`, `peopleConnected`, `pendingRequest` and `incomingRequest` |
| UserControllers.EmailTaken | controllers/user-controllers.js:12 | the lookup by email finds a document exactly when some stored user has that email |
| UserControllers.SignUpStatus | controllers/user-controllers.js:12-59 | sign-up answers 422 exactly when some user already has the email, 500 when the new document fails validation, and 201 otherwise |
| UserControllers.SignUpTwiceRejected | controllers/user-controllers.js:19-26 | once a user with an email is stored, the next sign-up with that email answers 422 |
| UserControllers.SignUpKeepsConsistent | model/UserAuth.js:4-13 | adding the new user under a fresh id keeps emails unique and every other part of the store invariant |
| UserControllers.SignUp | controllers/user-controllers.js:7-82 | on 201, adds exactly one user under a fresh id and returns a token for that id and email; otherwise stores nothing; posts are never touched |
| UserControllers.Login | controllers/user-controllers.js:84-136 | changes nothing; 403 when no user has the email, 500 when the password's digest differs from the stored one, otherwise 200 and a token for that user's id and email |
| UserControllers.SignUpThenLogin | controllers/user-controllers.js:7-136 | when sign-up answers 201, logging in straight away with the same email and password answers 200 with a token for the new id and that email |
| UserControllers.GetUserById | controllers/user-controllers.js:268-287 | changes nothing; returns the stored record with 200, or 500 when the id is unknown |
| UserControllers.RequestConnectStatus | controllers/user-controllers.js:150-186 | 404 exactly when either user is missing, 500 exactly when the target is already connected to or already requested by the requester, 200 otherwise |
| UserControllers.Requested | controllers/user-controllers.js:191-194 | the requester is appended to the target's `incomingRequest` and the target to the requester's `pendingRequest`; no other record or field changes |
| UserControllers.RequestKeepsMirrored | controllers/user-controllers.js:191-192 | after a request, each pending request still has a matching incoming entry, and the reverse |
| UserControllers.RequestKeepsConsistent | controllers/user-controllers.js:188-195 | a request keeps the whole store invariant |
| UserControllers.RequestConnect | controllers/user-controllers.js:138-202 | answers with `RequestConnectStatus`; on 200 the users become `Requested`, otherwise nothing changes; posts are never touched |
| UserControllers.RequestTwiceRejected | controllers/user-controllers.js:179-186 | repeating a request that succeeded answers 500 (already requested) |
| UserControllers.AcceptConnectStatus | controllers/user-controllers.js:208-248 | 500 when the accepter is missing, 404 when the other user is missing, 500 when they are already connected, and 200 otherwise, whether or not a request is pending |
| UserControllers.Accepted | controllers/user-controllers.js:253-258 | every occurrence of the accepter leaves the other user's `pendingRequest`, and every occurrence of the other user leaves the accepter's `incomingRequest`; each is appended to the other's `peopleConnected`; no other record or field changes |
| UserControllers.AcceptKeepsSymmetric | controllers/user-controllers.js:255-256 | after an accept, every connection is still recorded on both sides |
| UserControllers.AcceptKeepsMirrored | controllers/user-controllers.js:253-254 | after an accept, each pending request still has a matching incoming entry, and the reverse |
| UserControllers.AcceptKeepsConsistent | controllers/user-controllers.js:250-259 | an accept keeps the whole store invariant |
| UserControllers.AcceptConnect | controllers/user-controllers.js:204-266 | answers with `AcceptConnectStatus`; on 200 the users become `Accepted`, otherwise nothing changes; posts are never touched |
| UserControllers.RequestThenAccept | controllers/user-controllers.js:188-259 | after a successful request A→B, B accepting A passes its guard; then each is in the other's `peopleConnected`, A is not in B's `incomingRequest`, B is not in A's `pendingRequest`, and a new request either way answers 500 |
| PostControllers.NewPost | controllers/post-controllers.js:54-63 | a new post has the given title, text and tags, zero up-votes and down-votes, and the requester as owner |
| PostControllers.LinkPost | controllers/post-controllers.js:69 | the post id is appended to the owner's `posts`, and nothing else changes |
| PostControllers.UnlinkPost | controllers/post-controllers.js:138 | the post id leaves the owner's `posts`, and every other id stays with the same number of occurrences; nothing else changes |
| PostControllers.UnlinkAfterLink | controllers/post-controllers.js:137-139 | unlinking a post id that was just linked, and that the owner did not list before, gives back the original users |
| PostControllers.CreatePostStatus | controllers/post-controllers.js:40-75 | 201 exactly when the requester exists and the title, the text and every tag are non-empty; 404 otherwise |
| PostControllers.CreateKeepsConsistent | controllers/post-controllers.js:65-71 | saving the new post under a fresh id and linking it to its owner keeps the store invariant |
| PostControllers.CreatePost | controllers/post-controllers.js:37-78 | on 201, stores the new post under a fresh id that the owner did not list, and adds that id to the owner's `posts`; otherwise no user or post changes |
| PostControllers.VotePostStatus | controllers/post-controllers.js:93-97 | 200 exactly when the post exists, 500 otherwise |
| PostControllers.Voted | controllers/post-controllers.js:98-102 | "upvote" raises `upvote` by exactly 1 and any other vote type raises `downvote` by exactly 1; no other field changes |
| PostControllers.VotedTimes | controllers/post-controllers.js:98-102 | the post after `n` successive votes of one type |
| PostControllers.RepeatedVotes | controllers/post-controllers.js:98-102 | `n` votes of one type raise exactly that counter by `n` and leave every other field as it was |
| PostControllers.ReplaceKeepsConsistent | controllers/post-controllers.js:98-102 | saving a post back with the same owner and valid fields keeps the store invariant |
| PostControllers.VotePost | controllers/post-controllers.js:80-111 | on 200, only that post changes, to `Voted`; otherwise nothing changes; users are never touched |
| PostControllers.EditPostStatus | controllers/post-controllers.js:160-179 | 200 exactly when the post exists, the requester owns it, and the new title and text are non-empty; 500 otherwise |
| PostControllers.Edited | controllers/post-controllers.js:170-171 | an edit sets the title and the text and keeps the tags, the votes and the owner |
| PostControllers.EditPostById | controllers/post-controllers.js:148-182 | on 200, only that post changes, to `Edited`; otherwise nothing changes; users are never touched |
| PostControllers.DeletePostStatus | controllers/post-controllers.js:124-132 | 201 exactly when the post exists and the requester owns it, 500 otherwise |
| PostControllers.DeleteKeepsConsistent | controllers/post-controllers.js:134-140 | removing a post and unlinking it from its owner keeps the store invariant |
| PostControllers.DeletePostById | controllers/post-controllers.js:113-146 | on 201, removes the post and pulls its id from the owner's `posts`; otherwise nothing changes |
| PostControllers.CreateThenDelete | controllers/post-controllers.js:54-140 | after a successful create, the owner may delete the new post, and doing so gives back both collections exactly, the owner's `posts` list included |
| PostControllers.GetPostByTag | controllers/post-controllers.js:29 | returns exactly the stored posts whose `tags` contain the tag, unchanged |
| PostControllers.SearchAfterCreate | controllers/post-controllers.js:29 | a newly stored post appears in exactly the searches for its own tags |
| PostControllers.SearchAfterDelete | controllers/post-controllers.js:29 | a deleted post drops out of every search result, and nothing else does |
| PostControllers.SearchAfterVoteOrEdit | controllers/post-controllers.js:29 | votes and edits leave every search result's set of posts unchanged |

## Left out

- Web wiring is not modelled: the HTTP server, CORS, environment loading, the database connection and the route tables (server.js, routes/). The route table for users does not mount `requestConnect` or `acceptConnect`. The model treats them as callable anyway.
- Bearer-token checking before a handler runs is not modelled. The requester's id is a parameter of each method.
- bcrypt is not modelled. Hashing is the store's `hash` function, which cannot fail, and a password matches when its digest equals the stored one. Salting is not modelled.
- Token signing is not modelled. A token is the value `Token(userId, email)`; its signature, its secret and its one-hour expiry are left out.
- Failures thrown by the store, the hash or the signer are not modelled. The model assumes these calls succeed; validation failures on save are the exception, and they are modelled. The `catch` blocks that the model therefore never enters behave as follows.
  - The lookup catches answer 500.
  - The save catches answer 500 in `votePost`, `editPostById` and `deletePostById`, and 404 in `createPost`.
  - The save catch in `signUp` returns the error and sends no response.
  - The transaction catches in `requestConnect` and `acceptConnect` log `err`, but the caught variable is named `error`. That throws a ReferenceError before the 500 is passed on, so no response is sent.
- Sessions and transactions are not modelled. Each successful handler is one atomic update, and concurrent requests and isolation are out of scope.
- Mongoose document versioning is not modelled. When the requester and the target are the same user, `requestConnect` and `acceptConnect` load that user twice and save it twice. The model applies both saves' array changes, in order.
- `populate` is modelled as a lookup by id. Ids are compared by plain equality. Every id in a relationship list names a stored user, so population drops nothing.
- The user schema does not declare `pendingRequest` or `incomingRequest`, so strict mode would not persist them. The model stores them, since the handlers are written to use them.
- `signUp` returns its error on a failed save instead of passing it on, so no response is sent. The model counts that case as 500 with no user stored.
- Request-body fields that are absent (undefined), and a vote type that is not a string, are not modelled. Every input is a string; any vote type other than "upvote" counts as a down-vote.
- Records.UserSchemaOk: the password path's schema rules, `required` and `minlength: 6`, are not checked: `UserSchemaOk` looks only at `name` and `email`. The stored value is always a bcrypt digest, which is never empty and is longer than six characters. The model's `hash` is unconstrained, so the model would store a user whose digest is empty, which the schema would reject.
- Error message strings are not modelled; only the status codes are.
- `getAllPost` and `getAllUSer` are left out. They return whole collections and have nothing to state.
- The stored records that the connection handlers echo back are not modelled, nor is the message body of `deletePostById`.
- `getPostByTag` returns a map from id to post instead of an ordered array. A missing `tag` query parameter is not modelled.
- Vote counters are unbounded naturals, not JavaScript doubles.
