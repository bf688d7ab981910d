/**
 * The hosted document database as the handlers see it through `ctx.db`: one map per
 * table from document id to record. Ids come from a single counter, so a larger id
 * means a later insert, and listing ids in ascending order lists rows in the order the
 * database's indexes return rows that share an index key.
 *
 * The module also holds the two guards every mutation starts with: the caller must be
 * signed in and have a `users` row (looked up by the identity provider's subject), and,
 * for a mutation on an existing record, that record must exist and belong to the caller.
 */
module Database {
  import opened Wrappers
  import opened Schema

  /** The errors the handlers throw, one per message. */
  datatype Error =
    | NotAuthenticated            // "Not authenticated"
    | UserNotFound                // "User not found"
    | KitNotFound                 // "Kit not found"
    | VehiculoNotFound            // "Vehiculo not found"
    | ComponentNotFound           // "Component not found"
    | Unauthorized                // "Unauthorized"
    | ItemIdRequired(componentType: ComponentType)  // "<type>Id is required"

  /** No two users share a clerk subject, so the `byClerkId` lookup is unique. */
  ghost predicate UniqueClerkIds(users: map<UserId, User>) {
    forall a, b :: a in users && b in users && users[a].clerkId == users[b].clerkId ==> a == b
  }

  /** Every id of `table` is below `bound`. */
  ghost predicate IdsBelow<T>(table: map<nat, T>, bound: nat) {
    forall id :: id in table ==> id < bound
  }

  class Database {
    var users: map<UserId, User>
    var kits: map<KitId, Kit>
    var kitComponents: map<ComponentId, KitComponent>
    var vehiculos: map<VehiculoId, Vehiculo>
    var catalog: Catalog
    /** The id the next insert receives. */
    var nextId: nat

    ghost predicate Valid()
      reads this
    {
      && IdsBelow(users, nextId)
      && IdsBelow(kits, nextId)
      && IdsBelow(kitComponents, nextId)
      && IdsBelow(vehiculos, nextId)
      && UniqueClerkIds(users)
    }

    constructor (catalog: Catalog)
      ensures Valid()
      ensures users == map[] && kits == map[] && kitComponents == map[] && vehiculos == map[]
      ensures this.catalog == catalog
    {
      users, kits, kitComponents, vehiculos := map[], map[], map[], map[];
      this.catalog := catalog;
      nextId := 0;
    }
  }

  /** Nothing but `kits` (and the id counter) changed. */
  twostate predicate OnlyKitsChanged(db: Database)
    reads db
  {
    db.users == old(db.users) && db.kitComponents == old(db.kitComponents)
    && db.vehiculos == old(db.vehiculos) && db.catalog == old(db.catalog)
  }

  /** Nothing but `vehiculos` (and the id counter) changed. */
  twostate predicate OnlyVehiculosChanged(db: Database)
    reads db
  {
    db.users == old(db.users) && db.kits == old(db.kits)
    && db.kitComponents == old(db.kitComponents) && db.catalog == old(db.catalog)
  }

  /** Nothing but `kit_components` (and the id counter) changed. */
  twostate predicate OnlyComponentsChanged(db: Database)
    reads db
  {
    db.users == old(db.users) && db.kits == old(db.kits)
    && db.vehiculos == old(db.vehiculos) && db.catalog == old(db.catalog)
  }

  /** Nothing but `users` (and the id counter) changed. */
  twostate predicate OnlyUsersChanged(db: Database)
    reads db
  {
    db.kits == old(db.kits) && db.kitComponents == old(db.kitComponents)
    && db.vehiculos == old(db.vehiculos) && db.catalog == old(db.catalog)
  }

  /**
   * The rows of `table` with an id below `bound` that satisfy `keep`, in ascending id
   * order: an index range scan followed by a filter.
   */
  function Select<T>(table: map<nat, T>, keep: T -> bool, bound: nat): (docs: seq<Doc<T>>)
    ensures forall i :: 0 <= i < |docs| ==>
              docs[i].id < bound && docs[i].id in table && docs[i].value == table[docs[i].id] && keep(docs[i].value)
    ensures forall id :: id < bound && id in table && keep(table[id]) ==> Doc(id, table[id]) in docs
    ensures forall i, j :: 0 <= i < j < |docs| ==> docs[i].id < docs[j].id
    decreases bound
  {
    if bound == 0 then []
    else
      var earlier := Select(table, keep, bound - 1);
      var id := bound - 1;
      if id in table && keep(table[id]) then earlier + [Doc(id, table[id])] else earlier
  }

  /** `docs` lists exactly the rows of `table` that satisfy `keep`, in ascending id order. */
  ghost predicate Lists<T>(docs: seq<Doc<T>>, table: map<nat, T>, keep: T -> bool) {
    && (forall i :: 0 <= i < |docs| ==>
          docs[i].id in table && docs[i].value == table[docs[i].id] && keep(docs[i].value))
    && (forall id :: id in table && keep(table[id]) ==> Doc(id, table[id]) in docs)
    && (forall i, j :: 0 <= i < j < |docs| ==> docs[i].id < docs[j].id)
  }

  /** A scan bounded by the id counter of a valid database lists the whole selection. */
  lemma SelectLists<T>(table: map<nat, T>, keep: T -> bool, bound: nat)
    requires IdsBelow(table, bound)
    ensures Lists(Select(table, keep, bound), table, keep)
  {
    var docs := Select(table, keep, bound);
    forall id | id in table && keep(table[id])
      ensures Doc(id, table[id]) in docs
    {
      assert id < bound;
    }
  }

  /** Some user row carries the clerk subject `subject`. */
  ghost predicate HasUser(users: map<UserId, User>, subject: string) {
    exists u :: u in users && users[u].clerkId == subject
  }

  /** The user `owner` is the one signed in as `subject`. */
  ghost predicate Owns(users: map<UserId, User>, subject: string, owner: UserId) {
    owner in users && users[owner].clerkId == subject
  }

  function HasClerkId(subject: string): User -> bool {
    (u: User) => u.clerkId == subject
  }

  /** The `byClerkId` index lookup followed by `.unique()`. */
  function FindUser(db: Database, subject: string): (r: Option<UserId>)
    reads db
    requires db.Valid()
    ensures r.Some? <==> HasUser(db.users, subject)
    ensures r.Some? ==> Owns(db.users, subject, r.value)
  {
    var found := Select(db.users, HasClerkId(subject), db.nextId);
    if |found| == 0 then
      assert forall u :: u in db.users && db.users[u].clerkId == subject ==> Doc(u, db.users[u]) in found;
      None
    else
      assert found[0] in found;
      Some(found[0].id)
  }

  /**
   * The first guard of every mutation: the caller is signed in (`identity` is the
   * identity provider's subject) and has a `users` row; the result is that row's id.
   */
  function Authenticate(db: Database, identity: Option<string>): (r: Result<UserId, Error>)
    reads db
    requires db.Valid()
    ensures identity.None? ==> r == Failure(NotAuthenticated)
    ensures identity.Some? && !HasUser(db.users, identity.value) ==> r == Failure(UserNotFound)
    ensures r.Success? <==> identity.Some? && HasUser(db.users, identity.value)
    ensures r.Success? ==> Owns(db.users, identity.value, r.value)
  {
    if identity.None? then Failure(NotAuthenticated)
    else
      match FindUser(db, identity.value)
      case None => Failure(UserNotFound)
      case Some(u) => Success(u)
  }

  /**
   * The full guard of a mutation on an existing record, in the source's order:
   * signed in, then user row, then record (`owner` is the record's `userId`, `None`
   * when the record is missing, reported as `missing`), then ownership.
   */
  function Authorize(db: Database, identity: Option<string>, owner: Option<UserId>, missing: Error)
    : (r: Result<UserId, Error>)
    reads db
    requires db.Valid()
    ensures identity.None? ==> r == Failure(NotAuthenticated)
    ensures identity.Some? && !HasUser(db.users, identity.value) ==> r == Failure(UserNotFound)
    ensures identity.Some? && HasUser(db.users, identity.value) && owner.None? ==> r == Failure(missing)
    ensures (identity.Some? && HasUser(db.users, identity.value) && owner.Some? &&
             !Owns(db.users, identity.value, owner.value)) ==> r == Failure(Unauthorized)
    ensures r.Success? <==> identity.Some? && owner.Some? && Owns(db.users, identity.value, owner.value)
    ensures r.Success? ==> r.value == owner.value
  {
    match Authenticate(db, identity)
    case Failure(e) => Failure(e)
    case Success(caller) =>
      if owner.None? then Failure(missing)
      else if owner.value != caller then Failure(Unauthorized)
      else Success(caller)
  }

  /** The owner of kit `id`, or `None` when there is no such kit. */
  function KitOwner(kits: map<KitId, Kit>, id: KitId): Option<UserId> {
    if id in kits then Some(kits[id].userId) else None
  }
}
