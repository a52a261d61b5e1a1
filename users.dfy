/** The public-safe projection of an identity-provider user
    (src/server/helpers/filterUserForClient.ts). */
module Users {
  import opened Wrappers

  /** A user record as the identity provider returns it. The first four fields
      are the public ones; the rest stand for the provider's sensitive fields
      (contact data, private metadata), which must never reach a client.
      `username` and `firstName` may be null at the provider. */
  datatype User = User(
    id: string,
    username: Option<string>,
    profileImageUrl: string,
    firstName: Option<string>,
    lastName: Option<string>,
    emailAddresses: seq<string>,
    phoneNumbers: seq<string>,
    privateMetadata: string)

  /** The object literal built by the projection: exactly four fields. */
  datatype PublicUser = PublicUser(
    id: string,
    username: Option<string>,
    profileImageUrl: string,
    firstName: Option<string>)

  /** Everything of a user that the projection drops. */
  datatype Sensitive = Sensitive(
    lastName: Option<string>,
    emailAddresses: seq<string>,
    phoneNumbers: seq<string>,
    privateMetadata: string)

  /** The projection `filterUserforClient`: total, copies the four public
      fields unchanged (null values included) and nothing else. */
  function FilterUserForClient(user: User): (p: PublicUser)
    ensures p.id == user.id
    ensures p.username == user.username && p.firstName == user.firstName
    ensures p.profileImageUrl == user.profileImageUrl
  {
    PublicUser(user.id, user.username, user.profileImageUrl, user.firstName)
  }

  /** The part of a user the projection discards. */
  function SensitivePart(user: User): Sensitive
  {
    Sensitive(user.lastName, user.emailAddresses, user.phoneNumbers, user.privateMetadata)
  }

  /** Rebuilds a full user from its public and its sensitive part. */
  function Assemble(p: PublicUser, s: Sensitive): User
  {
    User(p.id, p.username, p.profileImageUrl, p.firstName,
         s.lastName, s.emailAddresses, s.phoneNumbers, s.privateMetadata)
  }

  /** A user is exactly its public part plus its sensitive part, so the
      projection drops only the sensitive fields ... */
  lemma UserSplits(user: User)
    ensures Assemble(FilterUserForClient(user), SensitivePart(user)) == user
  {
  }

  /** ... and whatever the sensitive fields hold, the projection returns the
      public part unchanged: no sensitive field survives or influences it. */
  lemma ProjectionDropsSensitive(p: PublicUser, s: Sensitive)
    ensures FilterUserForClient(Assemble(p, s)) == p
  {
  }
}
