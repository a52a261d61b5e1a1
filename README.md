# Feed join and user projection of a Twitter-style posting app

This project models the in-memory logic of the app's post API. It has two parts.

- **The feed query** `postsRouter.getAll`. It pairs every stored post with the public record of its author. The authors come from the users that the identity provider (Clerk) returned. If any post has no author among them, the whole request fails with the single error `INTERNAL_SERVER_ERROR` / "Author for post not found".
- **The projection** `filterUserforClient`. It keeps only the four public fields of a provider user (`id`, `username`, `profileImageUrl`, `firstName`) and drops everything else. `username` and `firstName` may be null.

Modules:

- `Wrappers` (wrappers.dfy): `Option` stands for null/undefined, and `Result` stands for a value or a thrown error.
- `Users` (users.dfy): the provider's `User`, the projected `PublicUser`, and the projection. It also has `SensitivePart`/`Assemble`, which split a user into its public and sensitive halves so that "dropped" can be stated.
- `Posts` (posts.dfy): `Post`, `FeedEntry`, the thrown `ApiError`, the router's own copy of the projection, `Array.find` as `FindUser`, the join `JoinFeed`, and the whole handler `GetAll`.

The database read and the identity-provider call are inputs. `JoinFeed` takes the already-projected users. `GetAll` takes the provider's raw users and projects them as posts.ts:29 does. The `take: 100` / `limit: 100` of those calls appears only as the precondition `|posts| <= 100 && |providerUsers| <= 100` on `GetAll`.

The code has no `orderBy` on the post query, so the model claims no ordering beyond keeping the order of the posts it was given.

## Model

| member | source | states |
|---|---|---|
| `Users.FilterUserForClient` | src/server/helpers/filterUserForClient.ts:6-9 | total on every user; the output's `id`, `username`, `profileImageUrl` and `firstName` are the input's, null values included |
| `Users.UserSplits` | src/server/helpers/filterUserForClient.ts:8 | a user is exactly its projection plus its sensitive part, so the projection drops only the sensitive fields |
| `Users.ProjectionDropsSensitive` | src/server/helpers/filterUserForClient.ts:8 | whatever the sensitive fields hold, projecting a user gives back its public part unchanged: no sensitive field survives |
| `Posts.FilterUserForClientLocal` | src/server/api/routers/posts.ts:9-12 | the router's local copy also copies exactly the four public fields |
| `Posts.LocalProjectionAgrees` | src/server/api/routers/posts.ts:9-12 | the local copy and the shared helper give identical output for every user |
| `Posts.ProjectAll` | src/server/api/routers/posts.ts:26-29 | mapping the projection over the provider's users keeps their number and order and projects each one |
| `Posts.AuthorIds` | src/server/api/routers/posts.ts:27 | the ids asked of the provider are one per post, in post order, each the post's `authorId` |
| `Posts.FindUser` | src/server/api/routers/posts.ts:33 | `find` returns nothing exactly when no user has the id; otherwise it returns the user at the first position whose id matches |
| `Posts.WithNameOverrides` | src/server/api/routers/posts.ts:44-48 | the spread with `username` and `firstName` written again yields the found user unchanged |
| `Posts.JoinFeed` | src/server/api/routers/posts.ts:31-50 | the `posts.map` join with `find` and a throw inside: on success one entry per post; every failure is the single error `INTERNAL_SERVER_ERROR` / "Author for post not found", whichever post triggered it. Its full contract is carried by `JoinFeedShape`, `JoinFeedFailsIff` and `JoinFeedFirstMatchingAuthor` |
| `Posts.GetAll` | src/server/api/routers/posts.ts:18-50 | the handler's in-memory part: project the provider's users, then join; on success one entry per post, and every failure of the join is "Author for post not found". Its full contract is carried by `GetAllFailsIff`, `GetAllAuthorIsProjection` and `GetAllIgnoresSensitive` |
| `Posts.JoinFeedShape` | src/server/api/routers/posts.ts:31-50 | on success the feed has one entry per post in the same order; each entry's `post` is the input post unchanged and its author is what `find` returned for it |
| `Posts.JoinFeedFailsIff` | src/server/api/routers/posts.ts:31-39 | the feed fails if and only if some post's `authorId` matches no user id: no partial result, no skipped post |
| `Posts.GetAllFailsIff` | src/server/api/routers/posts.ts:26-39 | through projection and join, the feed fails exactly when one of the author ids asked of the provider matches none of the users it returned |
| `Posts.JoinFeedEmpty` | src/server/api/routers/posts.ts:31 | an empty post list gives an empty feed for any users |
| `Posts.JoinFeedFirstMatchingAuthor` | src/server/api/routers/posts.ts:33 | on success each author's `id` equals its post's `authorId`, and the author is the first user in list order with that id |
| `Posts.GetAllAuthorIsProjection` | src/server/api/routers/posts.ts:18-50 | through projection and join, each entry keeps its post, and its author is the projection of the first provider user whose id is the post's `authorId` |
| `Posts.GetAllIgnoresSensitive` | src/server/api/routers/posts.ts:26-50 | giving every provider user other sensitive fields leaves the feed unchanged |

## Left out

- GetAll: errors raised by `findMany` or `getUserList` themselves propagate out of the handler unchanged; the model takes only their successful answers, so its only error is `AuthorNotFound`.
- The database query `findMany({take: 100})` and the identity-provider call `getUserList({userId, limit: 100})` are external. Their answers are parameters, and their limits appear only as the precondition of `GetAll`.
- No ordering of the feed is claimed beyond "same order as the posts given", because the post query has no `orderBy`.
- The `console.log(user)` in both copies of the projection is a side effect on the server log. It does not affect the result.
- async/await, tRPC router construction and authentication are framework plumbing.
- The provider's `User` has many more fields. Four of them (`lastName`, `emailAddresses`, `phoneNumbers`, `privateMetadata`) stand for all the sensitive ones.
- Post creation, rate limiting and content validation do not appear in the modelled router file.
- The user lookup by username (src/server/api/routers/profile.ts) is not part of this model. It only takes the first element of an external call's answer.
- The pages (src/pages/) are not part of this model. They are React rendering only.
