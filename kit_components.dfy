/**
 * The bill-of-materials table of a kit, after convex/kit_components.ts: each row of
 * `kit_components` says that a kit contains `quantity` units of one catalog item.
 * Adding an item the kit already lists raises that row's quantity instead of adding a
 * second row; setting a quantity to zero or less removes the row.
 */
module KitComponents {
  import opened Wrappers
  import opened Schema
  import opened Database

  /** The arguments of `addComponent`. */
  datatype AddArgs = AddArgs(kitId: KitId, componentType: ComponentType, items: ItemIds, quantity: real)

  /** What identifies a bill-of-materials line: the kit, the item type and the id of that type's column. */
  datatype LineKey = LineKey(kitId: KitId, componentType: ComponentType, itemId: Option<nat>)

  function Key(c: KitComponent): LineKey {
    LineKey(c.kitId, c.componentType, ItemId(c.items, c.componentType))
  }

  function ArgsKey(args: AddArgs): LineKey {
    LineKey(args.kitId, args.componentType, ItemId(args.items, args.componentType))
  }

  function HasKey(key: LineKey): KitComponent -> bool {
    (c: KitComponent) => Key(c) == key
  }

  /** At most one row per kit, type and item id. */
  ghost predicate NoDuplicateLines(components: map<ComponentId, KitComponent>) {
    forall a, b :: a in components && b in components && Key(components[a]) == Key(components[b]) ==> a == b
  }

  /** Every row holds a positive quantity. */
  ghost predicate PositiveQuantities(components: map<ComponentId, KitComponent>) {
    forall c :: c in components ==> components[c].quantity > 0.0
  }

  /** The row `addComponent` inserts: the arguments as given, with every supplied item id. */
  function NewComponentRow(args: AddArgs): KitComponent {
    KitComponent(args.kitId, args.componentType, args.items, args.quantity)
  }

  /**
   * The `byKitId` scan filtered on type, followed by `find` on the type's id column:
   * the earliest row (smallest id below `bound`) with key `key`, if any.
   */
  function FindLine(components: map<ComponentId, KitComponent>, key: LineKey, bound: nat)
    : (r: Option<ComponentId>)
    ensures r.Some? ==> r.value < bound && r.value in components && Key(components[r.value]) == key
    ensures r.Some? ==> forall id :: id < r.value && id in components ==> Key(components[id]) != key
    ensures r.None? ==> forall id :: id < bound && id in components ==> Key(components[id]) != key
  {
    var found := Select(components, HasKey(key), bound);
    if |found| == 0 then
      assert forall id :: id < bound && id in components && HasKey(key)(components[id]) ==>
               Doc(id, components[id]) in found;
      None
    else
      assert forall id :: id < found[0].id && id in components && HasKey(key)(components[id]) ==>
               Doc(id, components[id]) in found;
      Some(found[0].id)
  }

  /**
   * The upsert of `addComponent` took the table `before` (with id counter `counter`) to
   * `after` (with counter `counter'`) and returned `id`: when the kit already lists the
   * item, `id` is the earliest such line and only its quantity grew by the argument;
   * otherwise `id` is a fresh id holding the new row and the table grew by one.
   */
  ghost predicate Upserts(before: map<ComponentId, KitComponent>, counter: nat, args: AddArgs, id: ComponentId,
                          after: map<ComponentId, KitComponent>, counter': nat)
  {
    var existing := FindLine(before, ArgsKey(args), counter);
    if existing.Some? then
      && id == existing.value && counter' == counter
      && after == before[id := before[id].(quantity := before[id].quantity + args.quantity)]
    else
      && id !in before
      && after == before[id := NewComponentRow(args)]
      && |after| == |before| + 1
  }

  /**
   * `addComponent`: after the kit guard and the item-id check, raises the quantity of the
   * kit's existing line for this item, or inserts a new line; returns the line's id.
   */
  method AddComponent(db: Database, identity: Option<string>, args: AddArgs) returns (r: Result<ComponentId, Error>)
    requires db.Valid()
    modifies db
    ensures db.Valid() && OnlyComponentsChanged(db)
    ensures r.Success? <==>
              && identity.Some? && args.kitId in old(db.kits)
              && Owns(old(db.users), identity.value, old(db.kits)[args.kitId].userId)
              && ItemId(args.items, args.componentType).Some?
    ensures r.Failure? ==>
              && unchanged(db)
              && var guard := old(Authorize(db, identity, KitOwner(db.kits, args.kitId), KitNotFound));
                 r.error == (if guard.Failure? then guard.error else ItemIdRequired(args.componentType))
    ensures r.Success? ==> Upserts(old(db.kitComponents), old(db.nextId), args, r.value, db.kitComponents, db.nextId)
    ensures NoDuplicateLines(old(db.kitComponents)) ==> NoDuplicateLines(db.kitComponents)
    ensures args.quantity > 0.0 && PositiveQuantities(old(db.kitComponents)) ==> PositiveQuantities(db.kitComponents)
  {
    var guard := Authorize(db, identity, KitOwner(db.kits, args.kitId), KitNotFound);
    if guard.Failure? {
      return Failure(guard.error);
    }
    if ItemId(args.items, args.componentType).None? {
      return Failure(ItemIdRequired(args.componentType));
    }
    var id := UpsertLine(db, args);
    r := Success(id);
  }

  /**
   * The write of `addComponent` once its guards pass: raises the quantity of the kit's
   * existing line for this item, or inserts a new line under the id counter.
   */
  method UpsertLine(db: Database, args: AddArgs) returns (id: ComponentId)
    requires db.Valid()
    modifies db
    ensures db.Valid() && OnlyComponentsChanged(db)
    ensures Upserts(old(db.kitComponents), old(db.nextId), args, id, db.kitComponents, db.nextId)
    ensures NoDuplicateLines(old(db.kitComponents)) ==> NoDuplicateLines(db.kitComponents)
    ensures args.quantity > 0.0 && PositiveQuantities(old(db.kitComponents)) ==> PositiveQuantities(db.kitComponents)
  {
    var components, next := db.kitComponents, db.nextId;
    var existing := FindLine(components, ArgsKey(args), next);
    if existing.Some? {
      id := existing.value;
      RaiseLine(components, args, id, next);
      components := components[id := components[id].(quantity := components[id].quantity + args.quantity)];
    } else {
      id := next;
      InsertLine(components, args, id);
      components := components[id := NewComponentRow(args)];
      next := next + 1;
    }
    db.kitComponents, db.nextId := components, next;
  }

  /**
   * Writing a line keeps the table's invariants: quantities stay positive when the line's
   * is, and lines stay unique when the line keeps its row's key or its key is new.
   */
  lemma WriteKeepsInvariants(components: map<ComponentId, KitComponent>, id: ComponentId, line: KitComponent)
    ensures PositiveQuantities(components) && line.quantity > 0.0 ==> PositiveQuantities(components[id := line])
    ensures && NoDuplicateLines(components)
            && (id in components ==> Key(line) == Key(components[id]))
            && (id !in components ==> forall k :: k in components ==> Key(components[k]) != Key(line))
            ==> NoDuplicateLines(components[id := line])
  { }

  /** Raising the quantity of an existing line keeps its key, the ids and the invariants. */
  lemma RaiseLine(components: map<ComponentId, KitComponent>, args: AddArgs, id: ComponentId, bound: nat)
    requires IdsBelow(components, bound) && FindLine(components, ArgsKey(args), bound) == Some(id)
    ensures var raised := components[id := components[id].(quantity := components[id].quantity + args.quantity)];
      && Upserts(components, bound, args, id, raised, bound) && IdsBelow(raised, bound)
      && (PositiveQuantities(components) && args.quantity > 0.0 ==> PositiveQuantities(raised))
      && (NoDuplicateLines(components) ==> NoDuplicateLines(raised))
  {
    WriteKeepsInvariants(components, id, components[id].(quantity := components[id].quantity + args.quantity));
  }

  /**
   * A new line goes in under the id counter: the id is fresh, the table grows by one,
   * every id stays below the advanced counter, and the invariants are kept.
   */
  lemma InsertLine(components: map<ComponentId, KitComponent>, args: AddArgs, id: ComponentId)
    requires IdsBelow(components, id) && FindLine(components, ArgsKey(args), id).None?
    ensures Upserts(components, id, args, id, components[id := NewComponentRow(args)], id + 1)
    ensures IdsBelow(components[id := NewComponentRow(args)], id + 1)
    ensures PositiveQuantities(components) && args.quantity > 0.0 ==>
              PositiveQuantities(components[id := NewComponentRow(args)])
    ensures NoDuplicateLines(components) ==> NoDuplicateLines(components[id := NewComponentRow(args)])
  {
    WriteKeepsInvariants(components, id, NewComponentRow(args));
  }

  /**
   * `removeComponent`: a signed-in caller deletes a line of a kit they own. A missing
   * line, or a line whose kit is gone, is left alone without error; a line of someone
   * else's kit (or a caller without a user row) is "Unauthorized".
   */
  method RemoveComponent(db: Database, identity: Option<string>, id: ComponentId) returns (r: Outcome<Error>)
    requires db.Valid()
    modifies db
    ensures db.Valid() && OnlyComponentsChanged(db) && db.nextId == old(db.nextId)
    ensures identity.None? ==> r == Fail(NotAuthenticated)
    ensures r.Fail? ==> unchanged(db) && (identity.None? || r.error == Unauthorized)
    ensures r.Fail? <==>
              || identity.None?
              || (&& id in old(db.kitComponents) && old(db.kitComponents)[id].kitId in old(db.kits)
                  && !Owns(old(db.users), identity.value, old(db.kits)[old(db.kitComponents)[id].kitId].userId))
    ensures r.Pass? ==>
              db.kitComponents ==
                if id in old(db.kitComponents) && old(db.kitComponents)[id].kitId in old(db.kits)
                then old(db.kitComponents) - {id}
                else old(db.kitComponents)
    ensures NoDuplicateLines(old(db.kitComponents)) ==> NoDuplicateLines(db.kitComponents)
    ensures PositiveQuantities(old(db.kitComponents)) ==> PositiveQuantities(db.kitComponents)
  {
    if identity.None? {
      return Fail(NotAuthenticated);
    }
    if id !in db.kitComponents {
      return Pass;
    }
    var kitId := db.kitComponents[id].kitId;
    if kitId !in db.kits {
      return Pass;
    }
    var user := FindUser(db, identity.value);
    if user.Some? && db.kits[kitId].userId == user.value {
      db.kitComponents := db.kitComponents - {id};
      r := Pass;
    } else {
      r := Fail(Unauthorized);
    }
  }

  /**
   * The guard of `updateQuantity`, in its own order: signed in, then the line exists,
   * then its kit exists, then the caller has a user row that owns the kit.
   */
  function QuantityGuard(db: Database, identity: Option<string>, id: ComponentId): (r: Outcome<Error>)
    reads db
    requires db.Valid()
    ensures identity.None? ==> r == Fail(NotAuthenticated)
    ensures identity.Some? && id !in db.kitComponents ==> r == Fail(ComponentNotFound)
    ensures identity.Some? && id in db.kitComponents && db.kitComponents[id].kitId !in db.kits ==>
              r == Fail(KitNotFound)
    ensures (&& identity.Some? && id in db.kitComponents && db.kitComponents[id].kitId in db.kits
             && !Owns(db.users, identity.value, db.kits[db.kitComponents[id].kitId].userId)) ==>
              r == Fail(Unauthorized)
    ensures r.Pass? <==>
              && identity.Some? && id in db.kitComponents && db.kitComponents[id].kitId in db.kits
              && Owns(db.users, identity.value, db.kits[db.kitComponents[id].kitId].userId)
  {
    if identity.None? then Fail(NotAuthenticated)
    else if id !in db.kitComponents then Fail(ComponentNotFound)
    else if db.kitComponents[id].kitId !in db.kits then Fail(KitNotFound)
    else
      var user := FindUser(db, identity.value);
      if user.None? || db.kits[db.kitComponents[id].kitId].userId != user.value then Fail(Unauthorized)
      else Pass
  }

  /** `updateQuantity`: an owner sets a line's quantity; zero or less deletes the line. */
  method UpdateQuantity(db: Database, identity: Option<string>, id: ComponentId, quantity: real)
    returns (r: Outcome<Error>)
    requires db.Valid()
    modifies db
    ensures db.Valid() && OnlyComponentsChanged(db) && db.nextId == old(db.nextId)
    ensures r == old(QuantityGuard(db, identity, id))
    ensures r.Fail? ==> unchanged(db)
    ensures r.Pass? ==>
              db.kitComponents ==
                if quantity <= 0.0 then old(db.kitComponents) - {id}
                else old(db.kitComponents)[id := old(db.kitComponents)[id].(quantity := quantity)]
    ensures NoDuplicateLines(old(db.kitComponents)) ==> NoDuplicateLines(db.kitComponents)
    ensures PositiveQuantities(old(db.kitComponents)) ==> PositiveQuantities(db.kitComponents)
  {
    r := QuantityGuard(db, identity, id);
    if r.Fail? {
      return;
    }
    if quantity <= 0.0 {
      db.kitComponents := db.kitComponents - {id};
    } else {
      db.kitComponents := db.kitComponents[id := db.kitComponents[id].(quantity := quantity)];
    }
  }

  /** A line of a kit together with the catalog record it refers to (`null` is `None`). */
  datatype PopulatedLine = PopulatedLine(id: ComponentId, line: KitComponent, details: Option<Detail>)

  /** The catalog table of type `t` has a record with id `id`. */
  predicate InCatalog(catalog: Catalog, t: ComponentType, id: nat) {
    match t
    case SolarModuleType => id in catalog.solarModules
    case InverterType => id in catalog.inverters
    case BatteryType => id in catalog.batteries
    case StructureType => id in catalog.structures
    case CableType => id in catalog.cables
    case ProtectionType => id in catalog.protections
  }

  /**
   * The record the line's own type column points at, or `None` when that column is
   * empty or the record is gone; the other five columns are never looked at.
   */
  function Details(catalog: Catalog, c: KitComponent): (d: Option<Detail>)
    ensures d.Some? ==> DetailType(d.value) == c.componentType
    ensures d.Some? <==>
              ItemId(c.items, c.componentType).Some? && InCatalog(catalog, c.componentType, ItemId(c.items, c.componentType).value)
    ensures d.Some? && c.componentType == SolarModuleType ==>
              d.value == SolarModuleDetail(catalog.solarModules[c.items.solarModuleId.value])
    ensures d.Some? && c.componentType == InverterType ==>
              d.value == InverterDetail(catalog.inverters[c.items.inverterId.value])
    ensures d.Some? && c.componentType == BatteryType ==>
              d.value == BatteryDetail(catalog.batteries[c.items.batteryId.value])
    ensures d.Some? && c.componentType == StructureType ==>
              d.value == StructureDetail(catalog.structures[c.items.structureId.value])
    ensures d.Some? && c.componentType == CableType ==>
              d.value == CableDetail(catalog.cables[c.items.cableId.value])
    ensures d.Some? && c.componentType == ProtectionType ==>
              d.value == ProtectionDetail(catalog.protections[c.items.protectionId.value])
  {
    match c.componentType
    case SolarModuleType =>
      var id := c.items.solarModuleId;
      if id.Some? && id.value in catalog.solarModules then Some(SolarModuleDetail(catalog.solarModules[id.value])) else None
    case InverterType =>
      var id := c.items.inverterId;
      if id.Some? && id.value in catalog.inverters then Some(InverterDetail(catalog.inverters[id.value])) else None
    case BatteryType =>
      var id := c.items.batteryId;
      if id.Some? && id.value in catalog.batteries then Some(BatteryDetail(catalog.batteries[id.value])) else None
    case StructureType =>
      var id := c.items.structureId;
      if id.Some? && id.value in catalog.structures then Some(StructureDetail(catalog.structures[id.value])) else None
    case CableType =>
      var id := c.items.cableId;
      if id.Some? && id.value in catalog.cables then Some(CableDetail(catalog.cables[id.value])) else None
    case ProtectionType =>
      var id := c.items.protectionId;
      if id.Some? && id.value in catalog.protections then Some(ProtectionDetail(catalog.protections[id.value])) else None
  }

  function ForKit(kitId: KitId): KitComponent -> bool {
    (c: KitComponent) => c.kitId == kitId
  }

  /**
   * `getKitComponents`: every line of the kit, in insertion order, each with its detail
   * record. It needs no signed-in caller.
   */
  function GetKitComponents(db: Database, kitId: KitId): (r: seq<PopulatedLine>)
    reads db
    requires db.Valid()
    ensures Lists(seq(|r|, i requires 0 <= i < |r| => Doc(r[i].id, r[i].line)), db.kitComponents, ForKit(kitId))
    ensures forall i :: 0 <= i < |r| ==> r[i].details == Details(db.catalog, r[i].line)
  {
    var rows := Select(db.kitComponents, ForKit(kitId), db.nextId);
    SelectLists(db.kitComponents, ForKit(kitId), db.nextId);
    var catalog := db.catalog;
    var r := seq(|rows|, i requires 0 <= i < |rows| => PopulatedLine(rows[i].id, rows[i].value, Details(catalog, rows[i].value)));
    assert seq(|r|, i requires 0 <= i < |r| => Doc(r[i].id, r[i].line)) == rows;
    r
  }
}
