# Token registry of the license server

This project models the token registry of a small license server. The registry is a table that maps each token string to a record `{expiry, isValid, deviceId}`. It has three operations:

- **Seeding** inserts each of the five predefined tokens with `INSERT OR IGNORE`. A new row is valid and free. A row that already exists is left as it is.
- **Login** binds a token to a device. It is a single-slot compare-and-set. If the slot is free, or already held by the requesting device, the handler stores that device and sets `isValid` to true. Otherwise it leaves the row alone and reports the device that holds it.
- **Status** is read-only. It answers Occupied (with the stored device), Free, or 404 when no row exists.

Both handlers first check for missing parameters and then check that the token is in the fixed predefined list. Either check failing gives a 400.

The model has two modules:

- `TokenRegistry` (`registry.dfy`) holds the data model and the specification functions `SeedAll`, `LoginStep` and `Status`. It also holds the class `Registry`, which owns the table as a `map` field. The class updates that field in place in `Seed` (a loop over the predefined list) and in `Login`. Its methods are proved equal to the specification functions.
- `RegistryProperties` (`properties.dfy`) proves the properties that relate several calls. The main one is that no sequence of logins ever steals a bound slot.

Modelling choices:

- HTTP responses are the `Response` datatype.
- The SQLite table is a `map`.
- Whether each SQLite SELECT or UPDATE succeeds is a boolean parameter (`StoreIO`). A failed call gives the source's 500 answer and changes nothing.
- Query parameters are `Option<string>`. JavaScript truthiness is modelled explicitly: a missing parameter and `""` are both rejected, and a `deviceId` of null or `""` both count as free (`Given`, `IsBound`).

Two places where the model follows the code as written:

- When another device holds the slot, login answers with `IsValid: true` and the occupying device (index.js:81-83). It does not answer `IsValid: false`, so a client cannot tell a refused login from a successful one by that field. Both answers are the same response, `LoginOk`; the device it names is the one holding the slot.
- Login reads `row.deviceId` without checking that the row exists (index.js:70). This model represents that case as an explicit outcome, `Unhandled`: the handler throws before answering, and nothing is written. It is not expressed as a precondition. `LoginUnhandledExactly` states when it happens, and `SeededServesEveryListedToken` proves that it cannot happen once the table is seeded.

## Model

| member | source | states |
|---|---|---|
| `TokenRegistry.SeedAll` | index.js:31-32 | after seeding, the table's keys are the old keys plus every seed token; every existing row is unchanged; every inserted row is `{expiry, isValid: true, deviceId: null}` |
| `TokenRegistry.InsertOrIgnore` | index.js:32 | one seed insert leaves the keys as the old keys plus the token; every existing row, the token's own included, keeps its value; a token that had no row gets one that is valid and free with the given expiry |
| `TokenRegistry.Registry.Seed` | index.js:31-45 | the seeding loop, run in place over the predefined list, leaves exactly the table `SeedAll` describes |
| `TokenRegistry.Registry.constructor` | index.js:19-26 | opening the store with `CREATE TABLE IF NOT EXISTS` keeps the rows already stored |
| `TokenRegistry.LoginStep` | index.js:53-86 | login never creates or deletes a row and only touches the requested token's row; any answer other than a binding writes nothing; a binding answer carries the requested token, its stored expiry, `IsValid: true` and the non-empty device that holds the slot afterwards |
| `TokenRegistry.Registry.Login` | index.js:53-86 | the in-place handler gives the response and the new table that `LoginStep` gives for the old table |
| `TokenRegistry.Status` | index.js:89-115 | 400 exactly when the token is missing or not predefined, with "Missing token parameter" for a missing token and "Invalid token" for an unlisted one; 500 exactly on a failed read; 404 exactly when there is no row; otherwise Occupied with the stored device exactly when one is set, and Free exactly when none is set; never a login answer |
| `TokenRegistry.Registry.QueryStatus` | index.js:89-115 | the status handler reads the current table without modifying it and answers what `Status` answers |
| `RegistryProperties.Replay` | index.js:53-86 | any sequence of logins keeps the table's set of tokens |
| `RegistryProperties.LoginGuards` | index.js:56-62 | a login without a token or device gets 400 "Missing token or deviceID parameter", and an unlisted token gets 400 "Invalid token", before any lookup; both leave the table unchanged |
| `RegistryProperties.LoginWriteFails` | index.js:72-76 | when the UPDATE binding a free slot, or the device's own slot, fails, login answers 500 "Internal Server Error" and the table is unchanged |
| `RegistryProperties.LoginOkExactly` | index.js:53-86 | login answers with a 200 body exactly when both parameters are given, the token is listed, its row is read, and either another device holds the slot or the binding UPDATE succeeds |
| `RegistryProperties.LoginUnhandledExactly` | index.js:64-70 | login reaches a missing row exactly when both parameters are given, the token is listed, the read succeeds and the table has no row for that token; a failed read answers 500 "Internal Server Error" and writes nothing |
| `RegistryProperties.LoginBindsFreeOrOwnSlot` | index.js:70-78 | on a free slot or one the device already holds, login stores the device with `isValid` true and the same expiry, and answers with that device, the stored expiry and `IsValid: true` |
| `RegistryProperties.LoginReportsOccupant` | index.js:80-83 | when another device holds the slot, login leaves the table unchanged and answers with the occupying device, the stored expiry and `IsValid: true` |
| `RegistryProperties.BindingNeverStolen` | index.js:70-84 | once a token holds a device, no sequence of logins changes that device |
| `RegistryProperties.LoginIdempotent` | index.js:70-78 | repeating a login that got a 200 body gives the same answer, and leaves the stored table as it was whether the repeat's read and write succeed or fail |
| `RegistryProperties.FirstDeviceWins` | index.js:64-84 | when devices A and B log in to a free token one after the other, A holds the slot, B is told A holds it, B's request writes nothing, and status reports Occupied by A |
| `RegistryProperties.StatusAfterLogin` | index.js:70-110 | after any login answered with a binding, status reports the token as Occupied by the device in that answer |
| `RegistryProperties.SeedingSeeds` | index.js:31-32 | seeding the predefined list gives every predefined token a row, keeps every existing row (a bound device included), and makes new rows valid and free |
| `RegistryProperties.ReseedIsNoOp` | index.js:31-32 | seeding an already-seeded table again, with any expiry, changes nothing |
| `RegistryProperties.SeededServesEveryListedToken` | index.js:64-107 | on a seeded table, after any logins, login never reaches a missing row and status never answers 404 |

## Left out

- Express routing, `express.json()` and `app.listen` (index.js:50, 123-125) are transport. Responses are a datatype.
- SQLite I/O and callback sequencing are replaced by a map. Each store call's success is a parameter.
- Store failures during seeding are not modelled: a failed `CREATE TABLE` that skips seeding, and a failed `INSERT` that is only logged. Seeding is modelled as always succeeding.
- Console logging, including the SELECT after each seed insert that only feeds a log line (index.js:36-42), is diagnostic only.
- `calculateExpiryDate` (index.js:117-121) depends on the wall clock and on JavaScript `Date` formatting. Expiry is an opaque string passed to seeding. The source computes it once per inserted token, but the model uses one value for the whole seeding run.
- `Unhandled` stands for one unanswered request. In the source, the `TypeError` from `row.deviceId` (index.js:70) is thrown inside the sqlite3 callback, where Express does not catch it, so Node's default handling stops the whole server. The model instead lets later requests go on against the same table (`Replay`). The case can arise: `app.listen` (index.js:123) does not wait for the seeding callbacks (index.js:31-45), and a failed seed INSERT (index.js:33-34) leaves a predefined token without a row.
- Concurrency is not modelled. The source reads and then writes without a lock (index.js:64-72), so two concurrent logins can interleave. Each login is one sequential step here, and `FirstDeviceWins` covers only the serialized order.
- Query parameters that Express parses as arrays or objects are not modelled. A parameter is either absent or a string.
- The expiry date is stored and returned but never enforced, in the source and in the model alike.
