# Solar kits and vehicles: a Dafny model of the backend core

The app lets a signed-in user describe solar installations ("kits") and vehicles,
build each kit's bill of materials from a catalog of solar modules, inverters,
batteries, structures, cables and protections, size a kit's panel count from its
monthly consumption and the local irradiance, and read an electricity bill with a
generative-language model. Its backend is a set of handlers over a hosted document
database. This project models the logic of those handlers and proves what they promise.

- `wrappers.dfy`: the `Option`, `Result` and `Outcome` types.
- `schema.dfy` (module `Schema`): the records of the tables (users, kits,
  kit_components, vehiculos and the six catalog tables), after convex/schema.ts.
- `database.dfy` (module `Database`): the database as a class with one map per
  table and one id counter. Ids are handed out in increasing order, so listing rows by
  ascending id lists them in creation order, the order the database returns rows that
  share an index key. The module also holds the guards every mutation runs: signed in,
  user row found, record found, caller owns it, in that order.
- `sizing.dfy` (module `Sizing`): the arithmetic of `calculateSizing`, over exact reals.
- `kits.dfy`, `vehiculos.dfy` (modules `Kits`, `Vehiculos`): the guarded insert,
  patch and delete on `kits` and `vehiculos`, and their list queries.
- `kit_components.dfy` (module `KitComponents`): the bill-of-materials upsert, the
  quantity update, the owner-only removal and the join with the catalog.
- `users.dfy` (module `Users`): idempotent user provisioning by clerk subject, and
  the rule that turns a stored image id into a URL.
- `base64.dfy` (module `Base64`): Base64 as defined in section 4 of RFC 4648, with
  its decoder and the round trip.
- `actions.dfy` (module `Actions`): `toBase64`, the extraction of the JSON object from
  the model's reply, and the result of `analyzeBill`.

Mutations are methods on a `Database` that `modifies` it. Each states the error it
raises in each case, that a failed call changes nothing, the exact new table, and
that the other tables are unchanged. Queries are functions that read the database.
The caller's identity is an `Option<string>` holding the identity provider's subject.
Errors are values of an `Error` datatype, one constructor per message.

Two points about the sizing guards:

- The sizing guards are JavaScript falsiness checks, not range checks. A consumption,
  latitude or longitude of 0 is rejected, and a negative one passes. A negative pmax
  is not rejected either.
- The code has no check for a module that would produce nothing: it divides by zero
  and reports `Infinity` panels for that module (convex/sizing.ts:83-85). Exact reals
  have no `Infinity`, so the model raises `DegenerateProduction` when the mean
  irradiance is 0 or some module's pmax is 0. A single module with a pmax of 0
  therefore fails the whole call in the model.

## Model

| member | source | states |
|---|---|---|
| Database.Select | convex/kits.ts:21-26 | an index scan returns exactly the rows that pass the filter, each with its id and stored value, in strictly ascending id order |
| Database.SelectLists | convex/kits.ts:10-13 | in a valid database a scan up to the id counter lists every matching row of the table |
| Database.FindUser | convex/kits.ts:56-59 | the `byClerkId` lookup finds a row exactly when some user has that subject, and the row it returns has that subject |
| Database.Authenticate | convex/kits.ts:51-63 | signed out gives "Not authenticated"; no user row gives "User not found"; otherwise the result is the caller's own user id |
| Database.Authorize | convex/kits.ts:85-106 | errors come in order: not authenticated, user not found, record missing, not the owner; it succeeds exactly when the signed-in caller owns the record |
| Sizing.CalculateSizing | convex/sizing.ts:27-104 | errors in order: kit missing, then a falsy consumption/latitude/longitude, then an empty catalog, then zero production; otherwise peak sun hours are the rounded mean irradiance and demand is the rounded `consumption / 30 * 1.25`; there is one option per module, in catalog order, each with the ceiling panel count and that many panels' capacity and price |
| Sizing.CalculateSizingIrradianceOrder | convex/sizing.ts:71-73 | reordering the monthly irradiance values does not change the sizing result |
| Sizing.SumPermutation | convex/sizing.ts:72 | the `reduce` sum of the irradiance values is the same for any permutation of them |
| Sizing.MeanPermutation | convex/sizing.ts:71-73 | the average irradiance (peak sun hours) is invariant under permutation |
| Sizing.SumRemove | convex/sizing.ts:72 | taking one value out of the sum subtracts exactly that value |
| Sizing.Ceil | convex/sizing.ts:85 | `Math.ceil(x)` is the integer n with x ≤ n < x + 1 |
| Sizing.Round2 | convex/sizing.ts:96-97 | `parseFloat(x.toFixed(2))` is a whole number of cents within half a cent of x, with a tie going away from zero |
| Sizing.Round2Idempotent | convex/sizing.ts:101-104 | rounding an already rounded amount changes nothing |
| Sizing.Round2Symmetric | convex/sizing.ts:96-97 | rounding commutes with negation (halves go away from zero on both sides) |
| Sizing.ProductionZero | convex/sizing.ts:83 | a panel's daily production is zero exactly when pmax or the peak sun hours are zero |
| Sizing.PanelsNeededIsLeast | convex/sizing.ts:83-85 | with positive production the panel count is the least n whose n panels cover the demand, and it is at least 1 when the demand is positive |
| Sizing.PanelsNeededAntitone | convex/sizing.ts:83-85 | with demand and peak sun hours fixed, a module with a larger pmax never needs more panels than one with a smaller pmax |
| Sizing.CalculateSizingAntitone | convex/sizing.ts:81-99 | in a successful sizing with positive demand and peak sun hours, a module with a larger pmax is offered with no more panels than one with a smaller pmax |
| Sizing.SizeModuleSizes | convex/sizing.ts:81-99 | the option built for a module carries `ceil(demand / production)` panels and reports them |
| Kits.PatchKitFields | convex/kits.ts:108-109 | a patch replaces exactly the supplied fields; the owner and all other fields stay |
| Kits.PatchKitIdempotent | convex/kits.ts:108-109 | applying the same patch twice equals applying it once |
| Kits.PatchKitEmpty | convex/kits.ts:108-109 | a patch that supplies nothing leaves the kit as it was |
| Kits.GetKits | convex/kits.ts:9-30 | with a `userId` argument the result is exactly that user's kits, whoever calls; without one, exactly the caller's kits; signed out or without a user row, nothing; always in creation order |
| Kits.CreateKit | convex/kits.ts:51-70 | succeeds exactly for a signed-in caller with a user row; inserts one new kit owned by the caller with the arguments as fields; on failure nothing changes; no other table changes |
| Kits.UpdateKit | convex/kits.ts:85-109 | only the owner's call succeeds, with the guard's errors in order; it patches that one kit and nothing else changes |
| Kits.DeleteKit | convex/kits.ts:116-143 | only the owner's call succeeds; exactly that kit is removed and its bill-of-materials rows are left in place |
| Kits.AddBillToKit | convex/kits.ts:171-221 | only the owner's call succeeds; it sets the kit's `billStorageId` and nothing else |
| Vehiculos.PatchVehiculoFields | convex/vehiculos.ts:112-113 | a patch replaces exactly the supplied fields; the owner and the image stay |
| Vehiculos.PatchVehiculoIdempotent | convex/vehiculos.ts:112-113 | applying the same patch twice equals applying it once |
| Vehiculos.GetVehiculos | convex/vehiculos.ts:10-32 | with a `userId` argument the result is exactly that user's vehicles; without one, the caller's vehicles; signed out or without a user row, nothing |
| Vehiculos.CreateVehiculo | convex/vehiculos.ts:53-72 | succeeds exactly for a signed-in caller with a user row; inserts one vehicle owned by the caller; on failure nothing changes |
| Vehiculos.UpdateVehiculo | convex/vehiculos.ts:89-113 | errors in order: not authenticated, user not found, "Vehiculo not found", "Unauthorized"; only the owner's call patches that one vehicle |
| Vehiculos.DeleteVehiculo | convex/vehiculos.ts:120-143 | only the owner's call succeeds and removes exactly that vehicle; any other call changes nothing |
| KitComponents.FindLine | convex/kit_components.ts:60-73 | finds the earliest row of the kit with the same type and the same id in that type's column, and reports none only when no such row exists |
| KitComponents.AddComponent | convex/kit_components.ts:24-92 | kit guard errors in order, then "…Id is required" when the type's id is missing, with nothing changed; for a matching line its quantity grows by the argument and its id is returned; otherwise one new row is inserted and the table grows by one; at most one row per (kit, type, item id) is preserved, and so are positive quantities when the added quantity is positive |
| KitComponents.RemoveComponent | convex/kit_components.ts:101-122 | signed out gives "Not authenticated"; a missing row, or a row whose kit is gone, is left alone without error; the kit's owner deletes exactly that row; anyone else gets "Unauthorized" and nothing changes |
| KitComponents.QuantityGuard | convex/kit_components.ts:132-142 | errors in order: not authenticated, "Component not found", "Kit not found", then "Unauthorized" for a caller without a user row or who does not own the kit |
| KitComponents.UpdateQuantity | convex/kit_components.ts:132-148 | after the guard, a quantity ≤ 0 deletes the row and any other value becomes its quantity; no other row changes; positive quantities and one row per line are preserved |
| KitComponents.Details | convex/kit_components.ts:163-169 | the detail is present exactly when the id column of the row's own type is given and names a record of that type's catalog table, and it is that record |
| KitComponents.GetKitComponents | convex/kit_components.ts:155-178 | returns every row of the kit, in creation order, each with its detail record |
| Users.CreateUser | convex/users.ts:64-83 | if a row has the subject, returns its id and changes nothing; otherwise inserts one row with the subject, the email, 0 followers and just the supplied optional fields; afterwards exactly one row has the subject |
| Users.ResolveImageUrl | convex/users.ts:21-30 | a user whose image is absent, empty or starts with "http" is returned unchanged; otherwise only the image becomes the storage URL |
| Users.ResolveImageUrlIdempotent | convex/users.ts:21-30 | when storage URLs start with "http", resolving an already resolved user changes nothing |
| Users.GetUserByClerkId | convex/users.ts:10-30 | no subject or an empty one gives null; otherwise the user with that subject, image resolved, or null when there is none |
| Users.GetUserById | convex/users.ts:39-49 | null exactly when there is no user with that id; otherwise that user with all fields but the image as stored, the image unchanged when it is absent, empty or starts with "http", and the storage URL of the stored id otherwise |
| Base64.Encode | convex/actions.ts:11 | the encoding of n bytes is `4 * ceil(n / 3)` characters long |
| Base64.DecodeEncode | convex/actions.ts:11 | decoding the Base64 encoding gives back the bytes |
| Actions.Btoa | convex/actions.ts:11 | `btoa` succeeds exactly when every character code is below 256 |
| Actions.ToBase64 | convex/actions.ts:5-12 | the loop builds one character per byte with the byte as its code; the result is the Base64 encoding of the bytes and decodes back to them |
| Actions.FirstIndexOf | convex/actions.ts:89 | the position of the first occurrence of a character, or none when it does not occur |
| Actions.LastIndexOf | convex/actions.ts:89 | the position of the last occurrence of a character, or none when it does not occur |
| Actions.MatchJsonObject | convex/actions.ts:89 | the greedy `/\{[\s\S]*\}/` matches exactly when some `{` precedes some `}`, and the match runs from the first `{` through the last `}` |
| Actions.ExtractJson | convex/actions.ts:89 | the text given to the parser is the matched object, which starts with `{` and ends with `}`, or the whole reply when nothing matches |
| Actions.ExtractJsonWhole | convex/actions.ts:89 | a reply that starts with `{` and ends with `}` is handed to the parser whole, whatever braces it holds inside |
| Actions.ExtractJsonIdempotent | convex/actions.ts:89 | extracting the object from an extracted object gives it back unchanged |
| Actions.AnalyzeBill | convex/actions.ts:16-102 | a missing or empty API key fails, and only then, whatever storage and the network would do; with a key, a missing or empty file URL fails, and only then; otherwise the request carries the file's Base64 and its MIME type (default `image/jpeg`), a non-OK answer fails with exactly its status, status text and body, and an OK answer succeeds with the reply parsed: the data when the extracted object parses, else the fixed failure message with the raw reply |

## Left out

- The network calls are parameters. The PVWatts request (convex/sizing.ts:42-69) becomes
  the irradiance values; its API-key check and HTTP error are not modelled. The file
  download and the model request of `analyzeBill` become the functions `fetchFile` and
  `generate`. The reading of `candidates[0].content.parts[0].text` becomes the reply text.
  The log line of the parse-failure branch (convex/actions.ts:96) is not modelled.
- `JSON.parse` and `ctx.storage.getUrl` are function parameters.
- Sizing.CalculateSizing: requires at least one irradiance value, because the mean of
  none is `NaN` in JavaScript.
- Sizing.CalculateSizing: raises `DegenerateProduction` for the whole call when the mean
  irradiance is 0 or any one module has a pmax of 0. JavaScript instead reports
  `Infinity` (or `NaN`) panels, capacity and price for each such module and still sizes
  every other module normally; the model returns no options at all in that case,
  because exact reals cannot represent those values. NaN inputs are not modelled.
- Sizing.Round2: models `toFixed(2)` over exact reals. Binary floating point, and the
  cases where it rounds a decimal half the other way, are not modelled. Neither are
  `Math.ceil` and the division on floats.
- `getKitById` (convex/kits.ts:34-39), which `calculateSizing` calls, is the `kit`
  argument of `CalculateSizing`.
- `generateUploadUrl` (convex/kits.ts:151-155, convex/vehiculos.ts:36-38) only asks
  file storage for a URL. It is not modelled.
- `.unique()` throws when two rows share a clerk subject. The model keeps subjects unique
  as an invariant of the database instead. Every insert into `users` goes through
  `createUser`, which preserves it.
- The database's schema validation on insert is not modelled. `users.username` is
  declared required-but-nullable, yet `createUser` omits it when it is not given. The
  `vehiculos` table is not declared in convex/schema.ts; its record shape is taken
  from the `createVehiculo` arguments.
- `Promise.all` in `getKitComponents` is a sequential map. The model has no
  concurrency, and each handler runs as one atomic step.
- The catalog CRUD handlers, the webhook in convex/http.ts, the seeding script and all
  UI code are not part of this model.
- KitComponents.AddComponent: accepts any quantity, as the code does, so a quantity of 0 or
  less can store a line at or below zero; positive quantities are an invariant of the table
  only while every added quantity is positive.
- Kits.GetKits, Vehiculos.GetVehiculos: the order of rows is the creation order, as
  the database returns rows that share an index key. Nothing else about index order is
  modelled.
