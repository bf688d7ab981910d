/**
 * Record shapes of the tables the core reads and writes, after convex/schema.ts.
 * Document ids are natural numbers handed out by the database (see module Database);
 * JavaScript numbers are exact reals; optional fields are `Option`s.
 */
module Schema {
  import opened Wrappers

  type UserId = nat
  type KitId = nat
  type ComponentId = nat
  type VehiculoId = nat
  type SolarModuleId = nat
  type InverterId = nat
  type BatteryId = nat
  type StructureId = nat
  type CableId = nat
  type ProtectionId = nat

  /** Ids of files in the platform's file storage. */
  type StorageId = string

  /** A document together with its id, as queries return it. */
  datatype Doc<T> = Doc(id: nat, value: T)

  /** A row of `users`. `username` is declared `string | null`; `None` stands for both null and absent. */
  datatype User = User(
    email: string,
    clerkId: string,
    imageUrl: Option<string>,
    firstName: Option<string>,
    lastName: Option<string>,
    username: Option<string>,
    bio: Option<string>,
    location: Option<string>,
    websiteUrl: Option<string>,
    followersCount: real,
    pushToken: Option<string>)

  /** A row of `kits`: a solar installation owned by one user. */
  datatype Kit = Kit(
    userId: UserId,
    name: string,
    address: string,
    latitude: real,
    longitude: real,
    capacity: Option<real>,
    status: string,
    billStorageId: Option<StorageId>,
    monthlyConsumptionKwh: Option<real>,
    energyRate: Option<real>,
    totalAmount: Option<real>,
    currency: Option<string>,
    billingPeriod: Option<string>,
    provider: Option<string>)

  /** The six kinds of catalog item a kit can contain. */
  datatype ComponentType =
    | SolarModuleType | InverterType | BatteryType | StructureType | CableType | ProtectionType

  /** The six optional item-id columns of a `kit_components` row. */
  datatype ItemIds = ItemIds(
    solarModuleId: Option<SolarModuleId>,
    inverterId: Option<InverterId>,
    batteryId: Option<BatteryId>,
    structureId: Option<StructureId>,
    cableId: Option<CableId>,
    protectionId: Option<ProtectionId>)

  /** The item-id column that belongs to component type `t`. */
  function ItemId(ids: ItemIds, t: ComponentType): Option<nat> {
    match t
    case SolarModuleType => ids.solarModuleId
    case InverterType => ids.inverterId
    case BatteryType => ids.batteryId
    case StructureType => ids.structureId
    case CableType => ids.cableId
    case ProtectionType => ids.protectionId
  }

  /** A row of `kit_components`: one bill-of-materials line of a kit. */
  datatype KitComponent = KitComponent(
    kitId: KitId,
    componentType: ComponentType,
    items: ItemIds,
    quantity: real)

  /** A row of `vehiculos`; its shape is that of the `createVehiculo` arguments plus the owner. */
  datatype Vehiculo = Vehiculo(
    userId: UserId,
    marca: string,
    linea: string,
    modelo: string,
    year: real,
    color: string,
    combustible: string,
    cilindrada: real,
    transmision: string,
    storageId: Option<StorageId>)

  datatype SolarModule = SolarModule(
    brand: string, model: string, price: real, imageUrl: Option<string>,
    pmax: real, vmp: real, imp: real, voc: real, isc: real,
    efficiency: real, weight: real, dimensions: string)

  datatype Inverter = Inverter(
    brand: string, model: string, inverterType: string, power: real,
    efficiency: Option<real>, price: real, imageUrl: Option<string>)

  datatype Battery = Battery(
    brand: string, model: string, capacity: real, voltage: Option<real>,
    batteryType: string, price: real, imageUrl: Option<string>)

  datatype Structure = Structure(
    name: string, structureType: string, material: Option<string>,
    pricePerUnit: real, imageUrl: Option<string>)

  datatype Cable = Cable(
    name: string, cableType: string, pricePerMeter: real, imageUrl: Option<string>)

  datatype Protection = Protection(
    name: string, protectionType: string, rating: string, price: real, imageUrl: Option<string>)

  /** The six catalog tables, read by the bill-of-materials join. */
  datatype Catalog = Catalog(
    solarModules: map<SolarModuleId, SolarModule>,
    inverters: map<InverterId, Inverter>,
    batteries: map<BatteryId, Battery>,
    structures: map<StructureId, Structure>,
    cables: map<CableId, Cable>,
    protections: map<ProtectionId, Protection>)

  /** A catalog record of any of the six kinds. */
  datatype Detail =
    | SolarModuleDetail(solarModule: SolarModule)
    | InverterDetail(inverter: Inverter)
    | BatteryDetail(battery: Battery)
    | StructureDetail(structure: Structure)
    | CableDetail(cable: Cable)
    | ProtectionDetail(protection: Protection)

  /** The component type a catalog record belongs to. */
  function DetailType(d: Detail): ComponentType {
    match d
    case SolarModuleDetail(_) => SolarModuleType
    case InverterDetail(_) => InverterType
    case BatteryDetail(_) => BatteryType
    case StructureDetail(_) => StructureType
    case CableDetail(_) => CableType
    case ProtectionDetail(_) => ProtectionType
  }
}
