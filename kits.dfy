/**
 * The `kits` handlers of convex/kits.ts. Every mutation runs the guard of module
 * Database (signed in, user row, kit exists, caller owns it) before it inserts, patches
 * or deletes one row; a failed guard leaves the database as it was.
 */
module Kits {
  import opened Wrappers
  import opened Schema
  import opened Database

  /** The arguments of `createKit`. */
  datatype NewKit = NewKit(
    name: string, address: string, latitude: real, longitude: real,
    capacity: Option<real>, status: string)

  /** The fields `updateKit` may change; `None` means the field was not supplied. */
  datatype KitPatch = KitPatch(
    name: Option<string>, address: Option<string>, latitude: Option<real>,
    longitude: Option<real>, capacity: Option<real>, status: Option<string>)

  /** The row `createKit` inserts: the owner and the arguments, every other field absent. */
  function NewKitRow(owner: UserId, args: NewKit): Kit {
    Kit(owner, args.name, args.address, args.latitude, args.longitude, args.capacity, args.status,
        None, None, None, None, None, None, None)
  }

  /** `ctx.db.patch(id, updates)`: the supplied fields replace the stored ones. */
  function PatchKit(k: Kit, p: KitPatch): Kit {
    k.(name := if p.name.Some? then p.name.value else k.name,
       address := if p.address.Some? then p.address.value else k.address,
       latitude := if p.latitude.Some? then p.latitude.value else k.latitude,
       longitude := if p.longitude.Some? then p.longitude.value else k.longitude,
       capacity := if p.capacity.Some? then p.capacity else k.capacity,
       status := if p.status.Some? then p.status.value else k.status)
  }

  /** An empty patch changes nothing. */
  lemma PatchKitEmpty(k: Kit)
    ensures PatchKit(k, KitPatch(None, None, None, None, None, None)) == k
  {
  }

  /** Applying the same patch twice is the same as applying it once. */
  lemma PatchKitIdempotent(k: Kit, p: KitPatch)
    ensures PatchKit(PatchKit(k, p), p) == PatchKit(k, p)
  {
  }

  /** A patch sets exactly the supplied fields and keeps the owner and every other field. */
  lemma PatchKitFields(k: Kit, p: KitPatch)
    ensures var k' := PatchKit(k, p);
      && k'.userId == k.userId
      && (p.name.Some? ==> k'.name == p.name.value) && (p.name.None? ==> k'.name == k.name)
      && (p.address.Some? ==> k'.address == p.address.value) && (p.address.None? ==> k'.address == k.address)
      && (p.latitude.Some? ==> k'.latitude == p.latitude.value) && (p.latitude.None? ==> k'.latitude == k.latitude)
      && (p.longitude.Some? ==> k'.longitude == p.longitude.value) && (p.longitude.None? ==> k'.longitude == k.longitude)
      && (p.capacity.Some? ==> k'.capacity == p.capacity) && (p.capacity.None? ==> k'.capacity == k.capacity)
      && (p.status.Some? ==> k'.status == p.status.value) && (p.status.None? ==> k'.status == k.status)
      && k'.billStorageId == k.billStorageId && k'.monthlyConsumptionKwh == k.monthlyConsumptionKwh
      && k'.energyRate == k.energyRate && k'.totalAmount == k.totalAmount && k'.currency == k.currency
      && k'.billingPeriod == k.billingPeriod && k'.provider == k.provider
  {
  }

  function OwnedBy(owner: UserId): Kit -> bool {
    (k: Kit) => k.userId == owner
  }

  /**
   * `getKits`: the kits of the `userId` argument when given, whatever the caller;
   * otherwise the caller's kits; otherwise (signed out, or no user row) none.
   */
  function GetKits(db: Database, identity: Option<string>, userId: Option<UserId>): (r: seq<Doc<Kit>>)
    reads db
    requires db.Valid()
    ensures userId.Some? ==> Lists(r, db.kits, OwnedBy(userId.value))
    ensures userId.None? && identity.Some? && HasUser(db.users, identity.value) ==>
              exists caller :: Owns(db.users, identity.value, caller) && Lists(r, db.kits, OwnedBy(caller))
    ensures userId.None? && (identity.None? || !HasUser(db.users, identity.value)) ==> r == []
  {
    if userId.Some? then
      SelectLists(db.kits, OwnedBy(userId.value), db.nextId);
      Select(db.kits, OwnedBy(userId.value), db.nextId)
    else
      match Authenticate(db, identity)
      case Success(caller) =>
        SelectLists(db.kits, OwnedBy(caller), db.nextId);
        Select(db.kits, OwnedBy(caller), db.nextId)
      case Failure(_) => []
  }

  /** `createKit`: inserts one kit owned by the caller. */
  method CreateKit(db: Database, identity: Option<string>, args: NewKit) returns (r: Result<KitId, Error>)
    requires db.Valid()
    modifies db
    ensures db.Valid() && OnlyKitsChanged(db)
    ensures r.Success? <==> identity.Some? && HasUser(old(db.users), identity.value)
    ensures r.Failure? ==> r.error == (if identity.None? then NotAuthenticated else UserNotFound) && unchanged(db)
    ensures r.Success? ==>
              && r.value !in old(db.kits) && r.value in db.kits
              && Owns(db.users, identity.value, db.kits[r.value].userId)
              && db.kits == old(db.kits)[r.value := NewKitRow(db.kits[r.value].userId, args)]
  {
    var caller := Authenticate(db, identity);
    if caller.Failure? {
      return Failure(caller.error);
    }
    var id := db.nextId;
    db.kits := db.kits[id := NewKitRow(caller.value, args)];
    db.nextId := db.nextId + 1;
    r := Success(id);
  }

  /** `updateKit`: patches the supplied fields of a kit the caller owns. */
  method UpdateKit(db: Database, identity: Option<string>, id: KitId, patch: KitPatch) returns (r: Outcome<Error>)
    requires db.Valid()
    modifies db
    ensures db.Valid() && OnlyKitsChanged(db) && db.nextId == old(db.nextId)
    ensures r.Pass? <==> identity.Some? && id in old(db.kits) && Owns(old(db.users), identity.value, old(db.kits)[id].userId)
    ensures r.Fail? ==> Failure(r.error) == old(Authorize(db, identity, KitOwner(db.kits, id), KitNotFound)) && unchanged(db)
    ensures r.Pass? ==> db.kits == old(db.kits)[id := PatchKit(old(db.kits)[id], patch)]
  {
    var guard := Authorize(db, identity, KitOwner(db.kits, id), KitNotFound);
    if guard.Failure? {
      return Fail(guard.error);
    }
    db.kits := db.kits[id := PatchKit(db.kits[id], patch)];
    r := Pass;
  }

  /** `deleteKit`: removes a kit the caller owns; its components stay in `kit_components`. */
  method DeleteKit(db: Database, identity: Option<string>, id: KitId) returns (r: Outcome<Error>)
    requires db.Valid()
    modifies db
    ensures db.Valid() && OnlyKitsChanged(db) && db.nextId == old(db.nextId)
    ensures r.Pass? <==> identity.Some? && id in old(db.kits) && Owns(old(db.users), identity.value, old(db.kits)[id].userId)
    ensures r.Fail? ==> Failure(r.error) == old(Authorize(db, identity, KitOwner(db.kits, id), KitNotFound)) && unchanged(db)
    ensures r.Pass? ==> db.kits == old(db.kits) - {id}
  {
    var guard := Authorize(db, identity, KitOwner(db.kits, id), KitNotFound);
    if guard.Failure? {
      return Fail(guard.error);
    }
    db.kits := db.kits - {id};
    r := Pass;
  }

  /** `addBillToKit`: records the uploaded bill's storage id on a kit the caller owns. */
  method AddBillToKit(db: Database, identity: Option<string>, storageId: StorageId, kitId: KitId)
    returns (r: Outcome<Error>)
    requires db.Valid()
    modifies db
    ensures db.Valid() && OnlyKitsChanged(db) && db.nextId == old(db.nextId)
    ensures r.Pass? <==> identity.Some? && kitId in old(db.kits) && Owns(old(db.users), identity.value, old(db.kits)[kitId].userId)
    ensures r.Fail? ==> Failure(r.error) == old(Authorize(db, identity, KitOwner(db.kits, kitId), KitNotFound)) && unchanged(db)
    ensures r.Pass? ==> db.kits == old(db.kits)[kitId := old(db.kits)[kitId].(billStorageId := Some(storageId))]
  {
    var guard := Authorize(db, identity, KitOwner(db.kits, kitId), KitNotFound);
    if guard.Failure? {
      return Fail(guard.error);
    }
    db.kits := db.kits[kitId := db.kits[kitId].(billStorageId := Some(storageId))];
    r := Pass;
  }
}
