/**
 * The `vehiculos` handlers of convex/vehiculos.ts: the same guarded insert, patch and
 * delete as for kits, on the table of a user's vehicles.
 */
module Vehiculos {
  import opened Wrappers
  import opened Schema
  import opened Database

  /** The arguments of `createVehiculo`. */
  datatype NewVehiculo = NewVehiculo(
    marca: string, linea: string, modelo: string, year: real, color: string,
    combustible: string, cilindrada: real, transmision: string, storageId: Option<StorageId>)

  /** The fields `updateVehiculo` may change; `None` means the field was not supplied. */
  datatype VehiculoPatch = VehiculoPatch(
    marca: Option<string>, linea: Option<string>, modelo: Option<string>, year: Option<real>,
    color: Option<string>, combustible: Option<string>, cilindrada: Option<real>,
    transmision: Option<string>)

  /** The row `createVehiculo` inserts: the owner and the arguments. */
  function NewVehiculoRow(owner: UserId, args: NewVehiculo): Vehiculo {
    Vehiculo(owner, args.marca, args.linea, args.modelo, args.year, args.color,
             args.combustible, args.cilindrada, args.transmision, args.storageId)
  }

  /** `ctx.db.patch(id, updates)`: the supplied fields replace the stored ones. */
  function PatchVehiculo(v: Vehiculo, p: VehiculoPatch): Vehiculo {
    v.(marca := if p.marca.Some? then p.marca.value else v.marca,
       linea := if p.linea.Some? then p.linea.value else v.linea,
       modelo := if p.modelo.Some? then p.modelo.value else v.modelo,
       year := if p.year.Some? then p.year.value else v.year,
       color := if p.color.Some? then p.color.value else v.color,
       combustible := if p.combustible.Some? then p.combustible.value else v.combustible,
       cilindrada := if p.cilindrada.Some? then p.cilindrada.value else v.cilindrada,
       transmision := if p.transmision.Some? then p.transmision.value else v.transmision)
  }

  /** Applying the same patch twice is the same as applying it once. */
  lemma PatchVehiculoIdempotent(v: Vehiculo, p: VehiculoPatch)
    ensures PatchVehiculo(PatchVehiculo(v, p), p) == PatchVehiculo(v, p)
  {
  }

  /** A patch sets exactly the supplied fields and keeps the owner and the stored image. */
  lemma PatchVehiculoFields(v: Vehiculo, p: VehiculoPatch)
    ensures var v' := PatchVehiculo(v, p);
      && v'.userId == v.userId && v'.storageId == v.storageId
      && (p.marca.Some? ==> v'.marca == p.marca.value) && (p.marca.None? ==> v'.marca == v.marca)
      && (p.linea.Some? ==> v'.linea == p.linea.value) && (p.linea.None? ==> v'.linea == v.linea)
      && (p.modelo.Some? ==> v'.modelo == p.modelo.value) && (p.modelo.None? ==> v'.modelo == v.modelo)
      && (p.year.Some? ==> v'.year == p.year.value) && (p.year.None? ==> v'.year == v.year)
      && (p.color.Some? ==> v'.color == p.color.value) && (p.color.None? ==> v'.color == v.color)
      && (p.combustible.Some? ==> v'.combustible == p.combustible.value)
      && (p.combustible.None? ==> v'.combustible == v.combustible)
      && (p.cilindrada.Some? ==> v'.cilindrada == p.cilindrada.value)
      && (p.cilindrada.None? ==> v'.cilindrada == v.cilindrada)
      && (p.transmision.Some? ==> v'.transmision == p.transmision.value)
      && (p.transmision.None? ==> v'.transmision == v.transmision)
  {
  }

  function OwnedBy(owner: UserId): Vehiculo -> bool {
    (v: Vehiculo) => v.userId == owner
  }

  /** The owner of vehicle `id`, or `None` when there is no such vehicle. */
  function VehiculoOwner(vehiculos: map<VehiculoId, Vehiculo>, id: VehiculoId): Option<UserId> {
    if id in vehiculos then Some(vehiculos[id].userId) else None
  }

  /**
   * `getVehiculos`: the vehicles of the `userId` argument when given, whatever the
   * caller; otherwise the caller's vehicles; otherwise (signed out, or no user row) none.
   */
  function GetVehiculos(db: Database, identity: Option<string>, userId: Option<UserId>)
    : (r: seq<Doc<Vehiculo>>)
    reads db
    requires db.Valid()
    ensures userId.Some? ==> Lists(r, db.vehiculos, OwnedBy(userId.value))
    ensures userId.None? && identity.Some? && HasUser(db.users, identity.value) ==>
              exists caller :: Owns(db.users, identity.value, caller) && Lists(r, db.vehiculos, OwnedBy(caller))
    ensures userId.None? && (identity.None? || !HasUser(db.users, identity.value)) ==> r == []
  {
    if userId.Some? then
      SelectLists(db.vehiculos, OwnedBy(userId.value), db.nextId);
      Select(db.vehiculos, OwnedBy(userId.value), db.nextId)
    else
      match Authenticate(db, identity)
      case Success(caller) =>
        SelectLists(db.vehiculos, OwnedBy(caller), db.nextId);
        Select(db.vehiculos, OwnedBy(caller), db.nextId)
      case Failure(_) => []
  }

  /** `createVehiculo`: inserts one vehicle owned by the caller. */
  method CreateVehiculo(db: Database, identity: Option<string>, args: NewVehiculo)
    returns (r: Result<VehiculoId, Error>)
    requires db.Valid()
    modifies db
    ensures db.Valid() && OnlyVehiculosChanged(db)
    ensures r.Success? <==> identity.Some? && HasUser(old(db.users), identity.value)
    ensures r.Failure? ==> r.error == (if identity.None? then NotAuthenticated else UserNotFound) && unchanged(db)
    ensures r.Success? ==>
              && r.value !in old(db.vehiculos) && r.value in db.vehiculos
              && Owns(db.users, identity.value, db.vehiculos[r.value].userId)
              && db.vehiculos == old(db.vehiculos)[r.value := NewVehiculoRow(db.vehiculos[r.value].userId, args)]
  {
    var caller := Authenticate(db, identity);
    if caller.Failure? {
      return Failure(caller.error);
    }
    var id := db.nextId;
    db.vehiculos := db.vehiculos[id := NewVehiculoRow(caller.value, args)];
    db.nextId := db.nextId + 1;
    r := Success(id);
  }

  /** `updateVehiculo`: patches the supplied fields of a vehicle the caller owns. */
  method UpdateVehiculo(db: Database, identity: Option<string>, id: VehiculoId, patch: VehiculoPatch)
    returns (r: Outcome<Error>)
    requires db.Valid()
    modifies db
    ensures db.Valid() && OnlyVehiculosChanged(db) && db.nextId == old(db.nextId)
    ensures r.Pass? <==>
              identity.Some? && id in old(db.vehiculos) && Owns(old(db.users), identity.value, old(db.vehiculos)[id].userId)
    ensures r.Fail? ==>
              Failure(r.error) == old(Authorize(db, identity, VehiculoOwner(db.vehiculos, id), VehiculoNotFound))
              && unchanged(db)
    ensures r.Pass? ==> db.vehiculos == old(db.vehiculos)[id := PatchVehiculo(old(db.vehiculos)[id], patch)]
  {
    var guard := Authorize(db, identity, VehiculoOwner(db.vehiculos, id), VehiculoNotFound);
    if guard.Failure? {
      return Fail(guard.error);
    }
    db.vehiculos := db.vehiculos[id := PatchVehiculo(db.vehiculos[id], patch)];
    r := Pass;
  }

  /** `deleteVehiculo`: removes a vehicle the caller owns. */
  method DeleteVehiculo(db: Database, identity: Option<string>, id: VehiculoId) returns (r: Outcome<Error>)
    requires db.Valid()
    modifies db
    ensures db.Valid() && OnlyVehiculosChanged(db) && db.nextId == old(db.nextId)
    ensures r.Pass? <==>
              identity.Some? && id in old(db.vehiculos) && Owns(old(db.users), identity.value, old(db.vehiculos)[id].userId)
    ensures r.Fail? ==>
              Failure(r.error) == old(Authorize(db, identity, VehiculoOwner(db.vehiculos, id), VehiculoNotFound))
              && unchanged(db)
    ensures r.Pass? ==> db.vehiculos == old(db.vehiculos) - {id}
  {
    var guard := Authorize(db, identity, VehiculoOwner(db.vehiculos, id), VehiculoNotFound);
    if guard.Failure? {
      return Fail(guard.error);
    }
    db.vehiculos := db.vehiculos - {id};
    r := Pass;
  }
}
