/**
 * The `users` table, after convex/users.ts: the provisioning of a user row the first
 * time a clerk subject is seen, and the rule that turns a stored image (a file-storage
 * id) into a URL when a user is read back.
 */
module Users {
  import opened Wrappers
  import opened Schema
  import opened Database

  /** The arguments of `createUser`. */
  datatype NewUser = NewUser(
    clerkId: string, email: string, firstName: Option<string>, lastName: Option<string>,
    imageUrl: Option<string>, username: Option<string>, followersCount: real)

  /**
   * `createUser`: returns the id of the user with this clerk subject, inserting the row
   * first when there is none. The new row has the subject, the email, a follower count
   * of zero whatever the argument says, and only those optional fields that were given.
   */
  method CreateUser(db: Database, args: NewUser) returns (id: UserId)
    requires db.Valid()
    modifies db
    ensures db.Valid() && OnlyUsersChanged(db)
    ensures Owns(db.users, args.clerkId, id)
    ensures forall u :: u in db.users && db.users[u].clerkId == args.clerkId ==> u == id
    ensures old(HasUser(db.users, args.clerkId)) ==> Owns(old(db.users), args.clerkId, id) && unchanged(db)
    ensures !old(HasUser(db.users, args.clerkId)) ==>
              && id !in old(db.users)
              && db.users.Keys == old(db.users.Keys) + {id}
              && (forall u :: u in old(db.users) ==> db.users[u] == old(db.users)[u])
              && var row := db.users[id];
                 && row.clerkId == args.clerkId && row.email == args.email && row.followersCount == 0.0
                 && row.firstName == args.firstName && row.lastName == args.lastName
                 && row.imageUrl == args.imageUrl && row.username == args.username
                 && row.bio.None? && row.location.None? && row.websiteUrl.None? && row.pushToken.None?
    ensures |db.users| <= |old(db.users)| + 1
  {
    var existing := FindUser(db, args.clerkId);
    if existing.Some? {
      return existing.value;
    }
    var row := User(args.email, args.clerkId, None, None, None, None, None, None, None, 0.0, None);
    if args.firstName.Some? {
      row := row.(firstName := args.firstName);
    }
    if args.lastName.Some? {
      row := row.(lastName := args.lastName);
    }
    if args.imageUrl.Some? {
      row := row.(imageUrl := args.imageUrl);
    }
    if args.username.Some? {
      row := row.(username := args.username);
    }
    assert row.clerkId == args.clerkId;
    id := db.nextId;
    InsertKeepsClerkIdsUnique(db.users, id, row);
    db.users := db.users[id := row];
    db.nextId := db.nextId + 1;
  }

  /** Inserting a user whose subject no row carries keeps subjects unique. */
  lemma InsertKeepsClerkIdsUnique(users: map<UserId, User>, id: UserId, row: User)
    requires UniqueClerkIds(users) && id !in users && !HasUser(users, row.clerkId)
    ensures UniqueClerkIds(users[id := row])
    ensures forall u :: u in users ==> users[u].clerkId != row.clerkId
  {
  }

  predicate StartsWith(s: string, prefix: string) {
    |prefix| <= |s| && s[..|prefix|] == prefix
  }

  /** The stored image is a file-storage id: present, non-empty and not starting with "http". */
  predicate NeedsStorageUrl(imageUrl: Option<string>) {
    imageUrl.Some? && imageUrl.value != "" && !StartsWith(imageUrl.value, "http")
  }

  /**
   * The read-side image rule: a user whose image is absent, empty or already a URL comes
   * back as stored; otherwise the image becomes the storage URL of that file
   * (`storageUrl`, `None` when the storage has no such file).
   */
  function ResolveImageUrl(user: User, storageUrl: StorageId -> Option<string>): (r: User)
    ensures !NeedsStorageUrl(user.imageUrl) ==> r == user
    ensures NeedsStorageUrl(user.imageUrl) ==> r.imageUrl == storageUrl(user.imageUrl.value)
    ensures r.(imageUrl := user.imageUrl) == user
  {
    if NeedsStorageUrl(user.imageUrl) then user.(imageUrl := storageUrl(user.imageUrl.value)) else user
  }

  /** A storage that hands out http(s) URLs: resolving a resolved user changes nothing. */
  lemma ResolveImageUrlIdempotent(user: User, storageUrl: StorageId -> Option<string>)
    requires forall s :: storageUrl(s).Some? ==> StartsWith(storageUrl(s).value, "http")
    ensures ResolveImageUrl(ResolveImageUrl(user, storageUrl), storageUrl) == ResolveImageUrl(user, storageUrl)
  {
    var once := ResolveImageUrl(user, storageUrl);
    if NeedsStorageUrl(user.imageUrl) {
      var url := storageUrl(user.imageUrl.value);
      assert once.imageUrl == url;
      if url.Some? {
        assert StartsWith(url.value, "http");
      }
      assert !NeedsStorageUrl(once.imageUrl);
    }
  }

  /** `getUserByClerkId`: no (or an empty) subject gives `null`; otherwise that user, image resolved. */
  function GetUserByClerkId(db: Database, clerkId: Option<string>, storageUrl: StorageId -> Option<string>)
    : (r: Option<User>)
    reads db
    requires db.Valid()
    ensures clerkId.None? || clerkId.value == "" ==> r.None?
    ensures r.Some? <==> clerkId.Some? && clerkId.value != "" && HasUser(db.users, clerkId.value)
    ensures r.Some? ==>
              exists u :: Owns(db.users, clerkId.value, u) && r.value == ResolveImageUrl(db.users[u], storageUrl)
  {
    if clerkId.None? || clerkId.value == "" then None
    else
      match FindUser(db, clerkId.value)
      case None => None
      case Some(u) => Some(ResolveImageUrl(db.users[u], storageUrl))
  }

  /** `getUserById`: the user with that id, image resolved, or `null`. */
  function GetUserById(db: Database, id: UserId, storageUrl: StorageId -> Option<string>): (r: Option<User>)
    reads db
    ensures r.Some? <==> id in db.users
    ensures r.Some? ==> r.value.(imageUrl := db.users[id].imageUrl) == db.users[id]
    ensures r.Some? && !NeedsStorageUrl(db.users[id].imageUrl) ==> r.value == db.users[id]
    ensures r.Some? && NeedsStorageUrl(db.users[id].imageUrl) ==> r.value.imageUrl == storageUrl(db.users[id].imageUrl.value)
  {
    if id in db.users then Some(ResolveImageUrl(db.users[id], storageUrl)) else None
  }
}
