# Driver management controller, modelled in Dafny

This project models `DriverMgmController` of DataEase. The controller is the REST endpoint set
for database drivers and their JAR files. It has two pieces of logic of its own:

- **The type-filtered listing** `listDeDriver(type)`. It keeps the drivers whose type equals the
  requested one ignoring case, in their original order. It appends a synthetic `"default"`
  entry whose supported versions come from the last matching data-source type, because the loop
  overwrites them on every match. It then sets every entry's display alias to `name` or
  `name(versions)`.
- **The admin guard** `checkPermission`. It runs in front of the six mutating or detail endpoints
  (`delete`, `save`, `update`, `listDriverDetails`, `deleteDriverFile`, `excelUpload`). A
  non-admin caller gets the permission error and the driver service is never called. An admin's
  arguments go to the service call unchanged. Its value comes back unchanged, except that the two
  `void` endpoints answer with no value. An exception it throws is passed on.

Files, one module each:

- `optional.dfy` (`Optional`): a nullable reference, written as `Option`.
- `ascii_case.dfy` (`AsciiCase`): Java's `equalsIgnoreCase` restricted to ASCII. It follows
  `regionMatches`, which accepts two characters when they are equal, when their upper cases are
  equal, or when the lower cases of those upper cases are equal. The module proves that this is
  the same relation as comparing lower-cased strings, and that it is an equivalence.
- `driver_model.dfy` (`DriverModel`): the listed driver entry (`DriverDTO`), the stored driver
  record (`DeDriver`), the data-source type descriptor, driver files, uploads, and the alias rule. Emptiness follows `StringUtils.isEmpty`, so a blank
  versions string still decorates the name.
- `driver_listing.dfy` (`DriverListing`): `ListByType` is the listing as a pure function.
  `ListDeDriver` is a method with the controller's three loops, proved to compute it. The
  lemmas relate both to independent reference definitions: the positions of the matching drivers,
  and the last matching descriptor.
- `driver_admin.dfy` (`DriverAdmin`): `Handle(isAdmin, request, state, backend)` serves every
  endpoint. The services are an abstract state `S` with functions that read it (driver list,
  data-source types) and one function that performs a service call and returns its outcome and the
  next state. Each of them may throw, and an exception reaches the caller as `Failed(message)`.

The Java controller mutates its DTOs in place. The model returns fresh records instead, and proves
that only the alias field differs from the input record.

Three facts about the code are worth stating plainly:

- The two listings (lines 42-44 and 64-84) do not call `checkPermission`. Any caller with read
  permission gets them. `DriverAdmin.ListingsNeedNoAdmin` states this.
- Only the last entry of the typed listing is guaranteed to be the synthetic one. A matching
  driver whose id is `"default"` adds a second entry with that id.
  `DriverListing.DefaultEntryIsUnique` proves uniqueness when no such driver exists, and
  `DriverListing.MatchedDefaultIdRepeats` proves that such a driver gives a second entry.
- The alias test is `StringUtils.isEmpty` (line 77), not `isBlank`. So a versions string of `" "`
  decorates the name as `name( )`. `DriverModel.BlankVersionsDecorate` states this.

## Model

| member | source | states |
|---|---|---|
| AsciiCase.CharsMatchIffSameLower | core/backend/src/main/java/io/dataease/controller/datasource/DriverMgmController.java:65 | two characters match ignoring case exactly when their ASCII lower cases are equal |
| AsciiCase.EqualsIgnoreCaseIffSameFold | core/backend/src/main/java/io/dataease/controller/datasource/DriverMgmController.java:65 | the case-ignoring comparison holds exactly when the lower-cased strings are equal |
| AsciiCase.EqualsIgnoreCase | core/backend/src/main/java/io/dataease/controller/datasource/DriverMgmController.java:65 | the case-ignoring comparison of lines 65 and 71; no contract of its own, pinned down by CharsMatchIffSameLower, EqualsIgnoreCaseIffSameFold and EqualsIgnoreCaseIsEquivalence |
| AsciiCase.EqualsIgnoreCaseIsEquivalence | core/backend/src/main/java/io/dataease/controller/datasource/DriverMgmController.java:71 | comparing ignoring case is reflexive, symmetric and transitive |
| DriverModel.NameAlias | core/backend/src/main/java/io/dataease/controller/datasource/DriverMgmController.java:76-82 | the alias equals the name exactly when the versions are null or ""; otherwise it is the name followed by the versions in parentheses |
| DriverModel.NameAliasDeterminesVersions | core/backend/src/main/java/io/dataease/controller/datasource/DriverMgmController.java:77-81 | two equal aliases of one name come from versions that are both empty, or from the same non-empty versions |
| DriverModel.BlankVersionsDecorate | core/backend/src/main/java/io/dataease/controller/datasource/DriverMgmController.java:77 | a blank versions string still decorates the name; null and "" do not |
| DriverModel.WithAlias | core/backend/src/main/java/io/dataease/controller/datasource/DriverMgmController.java:76-82 | setting the alias fills it from the entry's own name and versions and changes no other field |
| DriverListing.MatchingDrivers | core/backend/src/main/java/io/dataease/controller/datasource/DriverMgmController.java:65 | every kept driver is an input driver whose type equals the requested one ignoring case; no more are kept than given |
| DriverListing.MatchIndices | core/backend/src/main/java/io/dataease/controller/datasource/DriverMgmController.java:65 | the matching positions are in range and ascending, and a position is listed exactly when its driver's type matches |
| DriverListing.MatchingDriversAtMatchIndices | core/backend/src/main/java/io/dataease/controller/datasource/DriverMgmController.java:65 | the filter output is exactly the drivers at the matching positions, in order |
| DriverListing.LastMatchVersions | core/backend/src/main/java/io/dataease/controller/datasource/DriverMgmController.java:70-74 | the versions the default entry ends up with; no contract of its own, pinned down by LastMatchVersionsWithoutMatch, LastMatchVersionsIsLastMatch and BuildDefaultEntry |
| DriverListing.DefaultEntry | core/backend/src/main/java/io/dataease/controller/datasource/DriverMgmController.java:66-69 | the synthetic entry before aliasing; no contract of its own, pinned down by ListByTypeDefaultLast and BuildDefaultEntry |
| DriverListing.LastMatchVersionsWithoutMatch | core/backend/src/main/java/io/dataease/controller/datasource/DriverMgmController.java:66-74 | with no descriptor of the requested type, the default entry's versions stay null |
| DriverListing.LastMatchVersionsIsLastMatch | core/backend/src/main/java/io/dataease/controller/datasource/DriverMgmController.java:70-74 | otherwise they are the versions of the last matching descriptor, null included |
| DriverListing.ListByType | core/backend/src/main/java/io/dataease/controller/datasource/DriverMgmController.java:64-84 | the listing holds one entry per matching driver plus one, ends with the aliased default entry, and each earlier entry is the aliased matching driver |
| DriverListing.ListByTypeKeepsMatchesInOrder | core/backend/src/main/java/io/dataease/controller/datasource/DriverMgmController.java:65-75 | the listing has one entry per matching position plus one, and its k-th entry is the driver at the k-th matching position (ascending, so in original order), changed only in its alias; so it is never empty |
| DriverListing.ListByTypeDefaultLast | core/backend/src/main/java/io/dataease/controller/datasource/DriverMgmController.java:66-75 | the last entry has id, name and class "default", no type, and the last matching descriptor's versions |
| DriverListing.ListByTypeAliases | core/backend/src/main/java/io/dataease/controller/datasource/DriverMgmController.java:76-82 | every entry's alias is its name when its versions are null or "", else name(versions) |
| DriverListing.DefaultEntryIsUnique | core/backend/src/main/java/io/dataease/controller/datasource/DriverMgmController.java:65-75 | if no matching driver has id "default", the last entry is the only one with that id |
| DriverListing.MatchedDefaultIdRepeats | core/backend/src/main/java/io/dataease/controller/datasource/DriverMgmController.java:65-75 | a matching driver whose id is "default" is kept, so an entry with that id appears before the synthetic last one |
| DriverListing.MatchingDriversIgnoresCase | core/backend/src/main/java/io/dataease/controller/datasource/DriverMgmController.java:65 | the filter gives the same drivers for requested types that differ only in case |
| DriverListing.LastMatchVersionsIgnoresCase | core/backend/src/main/java/io/dataease/controller/datasource/DriverMgmController.java:70-74 | the default entry's versions are the same for requested types that differ only in case |
| DriverListing.ListByTypeIgnoresCase | core/backend/src/main/java/io/dataease/controller/datasource/DriverMgmController.java:64-84 | requested types that differ only in case give the same listing |
| DriverListing.FilterByType | core/backend/src/main/java/io/dataease/controller/datasource/DriverMgmController.java:65 | a loop that appends each driver whose type matches ignoring case yields exactly the filtered drivers |
| DriverListing.BuildDefaultEntry | core/backend/src/main/java/io/dataease/controller/datasource/DriverMgmController.java:66-74 | starting from the "default" entry and overwriting its versions on every matching type yields the default entry with the last match's versions |
| DriverListing.SetAliases | core/backend/src/main/java/io/dataease/controller/datasource/DriverMgmController.java:76-82 | the aliasing loop gives every entry its alias and leaves the entries otherwise as they were |
| DriverListing.ListDeDriver | core/backend/src/main/java/io/dataease/controller/datasource/DriverMgmController.java:64-84 | filtering, building the default entry, appending it and aliasing every entry, in that order, computes the listing |
| DriverListing.ListByTypeExample | core/backend/src/main/java/io/dataease/controller/datasource/DriverMgmController.java:64-84 | a MySQL driver requested as "MYSQL" with no descriptors lists as [MySQL aliased "MySQL", default aliased "default"] |
| DriverAdmin.CheckPermission | core/backend/src/main/java/io/dataease/controller/datasource/DriverMgmController.java:144-148 | the check passes exactly for an admin and otherwise yields the driver-permission error |
| DriverAdmin.ServiceCallOf | core/backend/src/main/java/io/dataease/controller/datasource/DriverMgmController.java:58 | the service call and arguments each guarded endpoint delegates to (lines 58, 98, 112, 120, 128, 140); no contract of its own, pinned down case by case by AdminDelegatesArguments |
| DriverAdmin.Handle | core/backend/src/main/java/io/dataease/controller/datasource/DriverMgmController.java:42-141 | both listings keep the state and pass on an exception from reading the drivers; the unfiltered one answers the service's list, the typed one an exception from reading the types or else the listing by type; a guarded endpoint denies a non-admin with the state untouched; for an admin it takes the service call's next state and answers with the exception thrown, `Done` for the void endpoints, or the service's value |
| DriverAdmin.NonAdminNeverReachesService | core/backend/src/main/java/io/dataease/controller/datasource/DriverMgmController.java:144-148 | for a non-admin caller the guarded endpoints' answer does not depend on the service at all: permission error, state unchanged |
| DriverAdmin.AdminDelegatesArguments | core/backend/src/main/java/io/dataease/controller/datasource/DriverMgmController.java:56-141 | for an admin, delete, save and update pass the driver, the detail listing passes the id, file deletion passes only the file's id, and upload passes file and id; delete and file deletion answer `Done`, the others the service's value, and a thrown exception is passed on |
| DriverAdmin.VoidEndpointsAnswerNothing | core/backend/src/main/java/io/dataease/controller/datasource/DriverMgmController.java:56-59 | delete and file deletion (lines 56-59, 126-129) never answer with a value, whatever the service returns |
| DriverAdmin.ListingsNeedNoAdmin | core/backend/src/main/java/io/dataease/controller/datasource/DriverMgmController.java:42-84 | both listings answer admins and non-admins alike and keep the state; the unfiltered one returns the service's list unchanged; the typed one passes on an exception from reading the drivers, then from reading the types, and otherwise lists by type |

## Left out

- Spring routing, Shiro's `@RequiresPermissions("datasource:read")`, Swagger annotations and
  `@DeLog` audit logging: these are framework behaviour with no logic in this file.
- `DriverService` and `DatasourceService`: persistence, JAR storage and multipart handling are
  not part of this model. They appear only as the abstract state and the functions in
  `DriverAdmin.Backend`. Reading the list and the types is taken to leave that state unchanged.
- `AuthUtils.getUser()` and the session reduce to the `isAdmin` argument.
- The localized text of `I18N_NO_DRIVER_PERMISSION`: the error is the single value `NoDriverPermission`.
- What a service leaves behind when it throws is whatever state `exec` returns; reads that throw leave the state as it is.
- AsciiCase.EqualsIgnoreCase: compares ASCII letters only. Java's full Unicode case mapping is not modelled.
- DriverListing.ListByType: requires every driver to have a non-null type. A null type makes line 65
  throw a NullPointerException, and that exception is not modelled. The same holds for
  `DriverListing.ListDeDriver` and for `DriverAdmin.Handle` on the typed listing.
- Null driver names and null data-source type names are not modelled: both are plain strings.
  A null data-source type name makes line 71 throw a NullPointerException. A null driver name
  gives a null alias at line 78, or an alias starting with "null" at line 80.
- Sharing between the returned DTOs and the service's objects, which the in-place mutation
  creates, is not modelled.
