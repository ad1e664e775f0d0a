# Driver emergency registry — a Dafny model

The system is an Express/MySQL back end for motorcycle drivers ("motoristas").
A driver registers with personal data, up to two emergency contacts and a
vehicle. The registration stores a QR code payload pointing at the driver's
public emergency page. Anyone scanning the code sees the driver, the first
emergency contact and the latest vehicle, and each view is logged as a scan.
Drivers log in to read their profile and code and to update their vehicle.
The public can report incidents. An administrator lists and exports the
drivers with filters and paging.

This project models the core of that back end: `server.js` and
`routes/admin.js`. Its modules are:

- `JsValues` (js_values.dfy): the JavaScript value semantics the handlers rely on.
  It covers truthiness, `??` and `||`, `String(v)`, `Number(v)`, `trim` and ASCII case mapping.
- `ServerHelpers` (helpers.dfy): `normStr`, `safeEmail` and the `(v || "").trim()` idiom.
- `Tables` (tables.dfy): the table rows and the single-table queries, as functions over the table contents.
  The queries are lookup by id or email, the first contact by priority and the latest vehicle by id.
- `Auth` (auth.dfy): the bearer-token guard, the admin and driver role guards and the two logins.
  JWT signing and checking and bcrypt comparison are function parameters.
- `Registration` (registration.dfy): what the registration reads from its body and the rows it writes.
- `Views` (views.dfy): the read-only handlers, namely the emergency page, the profile, the driver's own code and vehicle.
- `Registry` (registry.dfy): the database as the class `Store`, whose handlers change its tables in place.
  - The registration transaction: faults at each awaited step, and a rollback that restores the rows but not the auto-increment counters.
  - The emergency resolver with its scan log.
  - The vehicle upsert.
  - The incident report.
  - Table invariants that every handler preserves.
- `AdminList` (admin_list.dfy): the admin listing and export.
  - Query normalisation and paging.
  - The imperative WHERE builder, proved against a specification of the clauses.
  - The parameter lists bound to the `?` placeholders.
  - The "latest vehicle per driver" join.

Failures of awaited database calls are modelled as explicit parameters: a `Fault` naming the step that throws, or a `readFault`/`writeFault` flag. External libraries are also parameters: `hash`, `compare`, `sign`, `verify`, and `render` for the QR renderer. Clocks (`now`) and request metadata (user agent, ip) are parameters too.

## Model

| member | source | states |
|---|---|---|
| ServerHelpers.SafeEmail | server.js:48-49 | result is always trimmed and lower-case; a string input gives that string trimmed and lower-cased; a falsy input gives "" |
| ServerHelpers.SafeEmailIdempotent | server.js:49 | normalising a normalised address changes nothing, so the stored address is found again by the login lookup |
| ServerHelpers.SafeEmailOfNormal | server.js:49 | an address already trimmed and lower-case passes through unchanged |
| ServerHelpers.TrimmedOrEmpty | server.js:80 | `(v \|\| "").trim()` throws exactly when v is truthy and not a string; a truthy string gives that string trimmed; a falsy v gives "" |
| JsValues.NumberOfString | server.js:358 | `Number(String(n))` gives back the integer n, so the id in the emergency URL reads back as the driver's id |
| JsValues.StringToNumber | server.js:209 | `Number(text)` after trimming: blank text is 0, a run of digits is its decimal value, a sign followed by digits is the signed value, and any other text is NaN (NaN exactly then) |
| JsValues.StringToNumberIgnoresBlanks | server.js:358 | surrounding blanks do not change what `Number` reads |
| JsValues.ToNumber | server.js:553 | `Number(v)`: undefined is NaN, null and false are 0, true is 1, a number is kept, a string is `Number` of its text; NaN only for undefined or a string |
| JsValues.TrimIdempotent | server.js:48 | trimming twice equals trimming once |
| Tables.PublicBaseUrl | server.js:31 | the base URL is always trimmed, and is "http://localhost:3000" when `PUBLIC_BASE_URL` is unset or empty |
| Tables.PublicBaseUrlOfSetting | server.js:31 | a set, non-empty `PUBLIC_BASE_URL` is used trimmed |
| Tables.OrNullCell | server.js:254-305 | `v \|\| null` in a text column is NULL exactly when v is falsy, and otherwise the string form of v |
| Tables.FindDriverById | server.js:363-369 | no row exactly when no driver has the id; a found row carries the id and is in the table |
| Tables.FindDriverByEmail | server.js:113-118 | no row exactly when no driver has the email; a found row carries the email |
| Tables.FindDriverByIdUnique | server.js:363-369 | with increasing ids, the lookup of a row's id returns that very row |
| Tables.PrimaryContact | server.js:373-381 | none exactly when the driver has no contact; otherwise a contact of the driver that ranks first under `prioridad ASC, id ASC` |
| Tables.PrimaryContactUnique | server.js:373-381 | with distinct ids the first contact is determined: any contact ranking before all others is it |
| Tables.LatestVehicle | server.js:384-392 | none exactly when the driver has no vehicle; otherwise the driver's row with the largest id |
| Tables.LatestVehicleIndexUnique | server.js:384-392 | with increasing ids, a row of the driver with the largest id is the one `ORDER BY id DESC LIMIT 1` picks |
| Tables.SetQrData | server.js:312-315 | same length; the row with the id takes the payload; every other row is unchanged |
| Tables.UpdateVehicleById | server.js:473-485 | same length; rows with the id take the new columns and keep id, owner and date; every other row is unchanged |
| Tables.ContactCountAppend | server.js:285-290 | contact counts distribute over appending rows |
| Tables.VehicleCountSnoc | server.js:486-497 | appending a row adds one to its owner's vehicle count and nothing to the others' |
| Auth.BearerToken | server.js:53-54 | a token exactly when the header starts with "Bearer "; the header is "Bearer " followed by the token |
| Auth.AuthRequired | server.js:52-63 | passes exactly when the token is non-empty and verifies, with the token's claims as user; every refusal is 401 |
| Auth.RequireAdmin | server.js:64-69 | passes exactly when the role is "admin"; 401 without a user and 403 with a user of another role |
| Auth.RequireDriver | server.js:70-75 | passes exactly when the role is "driver"; 401 without a user and 403 with a user of another role |
| Auth.GuardedSpec | server.js:52-75 | a protected route passes exactly when the token verifies and the role matches; a bad or missing token is 401 and a wrong role is 403 |
| Auth.AdminLogin | server.js:78-96 | a session (id 1, role admin, signed claims) exactly when the normalised email and trimmed password equal the configured ones; otherwise 401 BAD_CREDENTIALS, or a type error for a non-string password |
| Auth.AdminLoginUnconfiguredAcceptsEmpty | server.js:80-85 | with ADMIN_EMAIL and ADMIN_PASS unset, a login without email or password gets an admin session |
| Auth.AdminLoginConfigured | server.js:78-96 | a session only for a non-empty email and password, and exactly when an identity is configured and the source's check passes |
| Auth.AdminSessionPassesAdminGuard | server.js:86-93 | a token the admin login issues passes `authRequired` and `requireAdmin` with the same claims |
| Auth.BearerTokenAccepted | server.js:52-63 | "Bearer " followed by a verified non-empty token passes with its claims |
| Auth.DriverLogin | server.js:99-191 | the ladder: 400 when email or password is missing, 500 LOGIN_FAILED on a failed lookup, 401 for an unknown email, 500 PASSWORD_HASH_INVALID for a hash under 50 characters, 401 when the comparison fails; a session exactly when every check passes, signed with the row's id and email |
| Auth.DriverLoginDebugRevealsAccount | server.js:139-163 | two rejections with the same status and error differ in `dbg.err`: "COMPARE_FALSE" for a registered email and "NOT_FOUND" for an unknown one |
| Auth.DriverLoginWrongPassword | server.js:102-165 | a registered, normalised email with a valid hash and a password the comparison rejects gets 401 BAD_CREDENTIALS tagged "COMPARE_FALSE" |
| Auth.DriverLoginUnknownEmail | server.js:102-143 | a normalised email no driver has gets 401 BAD_CREDENTIALS tagged "NOT_FOUND" |
| Auth.LoginPasswordOfString | server.js:103 | a non-empty string password is used as sent |
| Auth.DriverLoginWithoutDebug | server.js:139-163 | unknown email and wrong password give the identical answer; it succeeds exactly when the source's login does |
| Auth.DriverSessionPassesDriverGuardOnly | server.js:167-171 | a driver token passes the driver guard with the driver's id and is refused with 403 by the admin guard |
| Registration.FirstOf | server.js:200-208 | the `?? ... ?? null` chain gives the field of the first alias that is neither null nor undefined, and null when every alias is; never undefined |
| Registration.FirstPresentUnique | server.js:200-208 | the `??` chain determines its value: two values that are both the first present alias are equal |
| Registration.YearOf | server.js:208-209 | no year exactly for null or ""; a number is kept; a non-empty string is `Number` of it (NaN when not numeric); undefined gives NaN |
| Registration.ReadRequest | server.js:197-228 | the plain fields are the body's fields as sent; each phone, plate, brand and model is the first present alias in the source's order; the year is `YearOf` of the first present year alias; the email is `safeEmail(correo \|\| email)`, trimmed and lower-case |
| Registration.RequiredFieldsOfBody | server.js:228-232 | the 400 check passes exactly when name, DPI and password are truthy and the normalised email is non-empty; an email of blanks is refused |
| Registration.NoVehicleLosesNothing | server.js:210-212 | when `hayVehiculo` is false every column of the vehicle row that would have been written is NULL |
| Registration.DpiKey | server.js:240 | the DPI compared for duplicates is trimmed, and for a string DPI is that string trimmed |
| Registration.IsDuplicateIffLookup | server.js:238-242 | the duplicate query finds a row exactly when a driver has the normalised email or a DPI equal to the trimmed new one |
| Registration.DriverInsert | server.js:251-264 | the driver row has the new id, the normalised email, the hash, the date, the text of name and DPI, each optional column NULL exactly when its field is falsy and its text otherwise, and no code yet |
| Registration.QrPayloadFor | server.js:309-315 | the payload is tagged "driver", carries the id and the DPI as sent, and its URL is the base URL, "/emergency/" and the id |
| Registration.RegisteredDriver | server.js:251-315 | the committed row has the given id, the normalised email, the hash and the text of dpi and name; its payload points at its own page and repeats its id and DPI |
| Registration.ContactsToInsert | server.js:268-284 | one contact per used slot; slot 1 with prioridad 1 before slot 2 with prioridad 2; each has a name or a phone, the driver's id, and the slot's name and phone as `v \|\| null` |
| Registration.SlotValues | server.js:269-283 | a pushed contact holds the driver id, the priority, and name and phone as `v \|\| null` |
| Registration.BuildContacts | server.js:268-284 | the pushed array equals the specified contacts |
| Registration.WithIds | server.js:285-290 | the multi-row insert gives consecutive ids from the counter and keeps each value |
| Registration.PlateColumn | server.js:300 | a plate exactly when `placa` is truthy, stored upper-case |
| Registration.YearColumn | server.js:303 | the registration's `anio \|\| null` stores a year exactly when it is a non-zero number |
| Registration.VehicleInsert | server.js:293-306 | the vehicle row carries the id, the owner and the date, the plate upper-cased when truthy, the year when a non-zero number, and brand and model as `v \|\| null` |
| Registration.NonNumericYearStillMakesVehicle | server.js:208-211 | a non-numeric year makes `hayVehiculo` true but is stored as NULL |
| Registration.DuplicateCheckTrimsOnlyTheNewDpi | server.js:238-241 | the duplicate query trims only the new DPI, so a stored " 1234" does not block "1234" |
| Registration.ErrorText | server.js:350-352 | the error message is never empty and defaults to "No se pudo registrar" |
| Registry.RegistrationKeepsWellFormed | server.js:248-317 | a committed registration keeps driver, contact and vehicle tables well formed (ids from counters, unique normalised emails, own code, at most two contacts per driver, upper-case plates) |
| Registry.TablesAppendWellFormed | server.js:251-306 | a new driver row with the next id, a fresh normalised email and its own code, at most two of its contacts and at most one vehicle with the counter ids keep all three tables well formed |
| Registry.DriverAppendWellFormed | server.js:251-265 | appending a coded driver with the next id and a fresh normalised email keeps the driver table well formed |
| Registry.VehicleAppendWellFormed | server.js:293-306 | appending a vehicle with the counter id and an upper-case plate keeps the vehicle table well formed |
| Registry.ContactsAppendWellFormed | server.js:268-290 | adding at most two contacts of a new driver keeps the contact table well formed |
| Registry.WellFormedLargerCounters | server.js:340-347 | rolled-back rows stay well formed under the counters that moved on |
| Registry.SetQrDataOfNewRow | server.js:312-315 | setting the payload of the new last row changes only that row |
| Registry.PutYear | server.js:482 | the PUT's `anio ? Number(anio) : null` stores a year exactly when `anio` is truthy, NaN for text |
| Registry.VehicleFieldsOf | server.js:466-483 | the PUT's columns: a plate exactly when `placa` is truthy, stored upper-case; brand and model as `v \|\| null`; a year exactly when `anio` is truthy, as `Number(anio)` |
| Registry.Upserted | server.js:473-497 | the table grows by at most one row; every row of another driver keeps its place and value; every changed or added row is the caller's and carries the written columns |
| Registry.UpsertLatestWins | server.js:467-497 | after a PUT the driver's current vehicle carries exactly the written columns |
| Registry.UpsertCount | server.js:467-497 | after a PUT the driver has one vehicle row if they had none, and as many as before otherwise |
| Registry.UpsertOthersUntouched | server.js:473-497 | a PUT leaves every other driver's rows, current vehicle and row count unchanged |
| Registry.RewriteKeepsOthers | server.js:473-485 | rewriting another driver's row in place (same id and owner) leaves a driver's current vehicle and row count unchanged |
| Registry.AppendKeepsOthers | server.js:486-497 | inserting another driver's row with a larger id leaves a driver's current vehicle and row count unchanged |
| Registry.UpdateByIdIsUpsert | server.js:473-485 | with distinct ids, updating the latest row by its id is updating it in place |
| Registry.UpsertTwice | server.js:464-504 | two PUTs: the current vehicle shows the second payload; the driver has one row if they had none, and as many as before otherwise |
| Registry.PutThenGet | server.js:448-504 | a PUT followed by a GET reads back the written columns |
| Registry.ReadIncident | server.js:551-578 | throws exactly when a text field is truthy and not a string; refused exactly when it does not throw and the driver id is zero or NaN or `tipo` is empty; otherwise the row holds the id, the trimmed type, each optional text trimmed or NULL when empty, the trimmed estado ("pendiente" by default) and the date |
| Registry.Resolve | server.js:357-408 | 500 exactly when the id is truthy and a query fails; otherwise the emergency lookup |
| Registry.ScanOf | server.js:396-399 | the scan row holds the driver id and the date; user agent and ip are NULL exactly when absent or empty and otherwise kept |
| Registry.CodeOpensOwnEmergencyPage | server.js:309-358 | the URL in a committed driver's code ends in its id; the resolver reads that id back and shows that driver with the DPI the payload carries |
| Registry.MyQrShowsStoredCode | server.js:429-445 | the own-code view shows the payload stored at registration, whose URL is the view's URL |
| Registry.Store.constructor | server.js:31 | an empty registry whose tables are well formed |
| Registry.Store.Rollback | server.js:341-343 | the three tables get back their earlier rows; the counters stay |
| Registry.Store.Register | server.js:194-354 | 400 exactly when required fields are missing; 409 exactly for a taken email or trimmed DPI with no earlier fault; 201 exactly when no fault hits and the code renders, with the exact new rows and response; on any other outcome the tables are unchanged; counters never decrease; tables stay well formed |
| Registry.Store.Transaction | server.js:234-354 | the transaction after the field check: the same outcome and table facts as `Register` |
| Registry.Store.Apply | server.js:248-354 | the writes commit on success or roll back to the earlier rows on any failure |
| Registry.Store.WriteRegistration | server.js:248-317 | no failure exactly when the fault misses every write; on success the exact rows written and counters moved |
| Registry.Store.InsertRows | server.js:251-306 | the three inserts: driver with the next id, one contact per used slot, the vehicle when present; each counter moves by its rows |
| Registry.Store.StoreCode | server.js:309-317 | renders the page URL, stores the payload on the new row, commits; only the driver table changes |
| Registry.Store.ResolveEmergency | server.js:357-408 | the page as `Resolve` gives it; a scan row is appended exactly when the page is served and the scan insert succeeds |
| Registry.Store.PutVehicle | server.js:464-504 | success exactly when neither query fails; then the table is the upsert of the caller's latest row; otherwise unchanged |
| Registry.Store.ReportIncident | server.js:550-595 | no answer and no row when the body makes `trim` throw; 400 for a missing id or type; otherwise the row is appended unless the insert fails (500 with its message) |
| Views.EmergencyLookup | server.js:357-403 | 400 exactly when the id is 0 or NaN; 404 exactly when no driver has it; otherwise the driver's public columns, the contact ranking first and the vehicle with the largest id |
| Views.EmergencyLookupIgnoresSecrets | server.js:363-369 | the public page does not depend on the password hash or the code payload |
| Views.EmergencyOfDriver | server.js:363-403 | the page built for a driver row shows that row's public columns, its first-ranking contact (none exactly when it has none) and its largest-id vehicle (none exactly when it has none) |
| Views.RouteIdOfRenderedId | server.js:358 | a path segment written from a nonzero id is read back as that id |
| Views.RouteId | server.js:358 | `Number(req.params.id \|\| 0)`: an empty segment is 0, any other is `Number` of its text |
| Views.Me | server.js:412-426 | 500 exactly on a failed query; 404 exactly when no driver has the id; otherwise the caller's row without the hash |
| Views.MyQrOf | server.js:429-445 | 404 exactly when the caller is unknown; 500 on a failed query or render; otherwise the image of the caller's page URL and the stored payload |
| Views.GetOwnVehicle | server.js:448-462 | 500 exactly on a failed query; no vehicle exactly when the caller has none; otherwise the caller's row with the largest id |
| AdminList.Norm | routes/admin.js:21 | `(v ?? "").toString().trim()` is trimmed and "" for null or undefined |
| AdminList.ReadFilters | routes/admin.js:119-122 | `q` is `norm(q)` lower-cased; `marca`, `date_from` and `date_to` are `norm` of their parameters; all trimmed |
| AdminList.PageOf | routes/admin.js:123 | 1 when absent; for a numeric parameter its value raised to at least 1; NaN exactly when the parameter is not a number |
| AdminList.PageSizeOf | routes/admin.js:124 | 10 when absent; for a numeric parameter its value clamped to [1, 100]; NaN exactly when not a number |
| AdminList.Offset | routes/admin.js:125 | finite exactly when page and size are; non-negative for page and size of at least 1 |
| AdminList.PagesTile | routes/admin.js:125 | page 1 starts at row 0 and page p + 1 starts where page p ends |
| AdminList.BindAppend | routes/admin.js:164-172 | binding placeholders distributes over concatenating SQL text |
| AdminList.ClauseTemplate | routes/admin.js:130-151 | the search clause has five placeholders and each other clause one |
| AdminList.ActiveClausesInOrder | routes/admin.js:127-152 | one clause per set filter, each at most once, in the order q, marca, date_from, date_to |
| AdminList.PushIfSet | routes/admin.js:129-152 | one builder block pushes the filter's clause and values exactly when it is set |
| AdminList.BuildWhere | routes/admin.js:127-152 | the pushed `where` and `params` are the clause texts and values of the set filters, in order |
| AdminList.WhereAligned | routes/admin.js:127-153 | the joined WHERE has one placeholder per parameter, and binding gives every clause exactly its own values |
| AdminList.JoinStep | routes/admin.js:153 | binding `clause AND rest` binds the clause to its own values and the rest to the others |
| AdminList.WhereSql | routes/admin.js:153 | empty exactly when there is no clause; otherwise "WHERE " followed by the clauses joined with " AND " |
| AdminList.WhereEmptyIffNoFilter | routes/admin.js:153 | no WHERE text exactly when no filter is set |
| AdminList.SqlBaseAligned | routes/admin.js:153-159 | the shared FROM/WHERE text has one placeholder per filter value; bound, it is the FROM text, then, when a filter is set, "WHERE " and each clause bound to its own values, joined with AND |
| AdminList.FilterValues | routes/admin.js:129-152 | the parameters are five `%q%` for a search, then one value per other set filter, in clause order |
| AdminList.ListBinding | routes/admin.js:155-172 | count and page queries bind the same filter values to the same text; the page query then binds pageSize to LIMIT and off to OFFSET |
| AdminList.ExportBinding | routes/admin.js:198-243 | the export binds exactly the listing's filter values to the same filter text, with a literal 20000-row cap |
| AdminList.PlanList | routes/admin.js:117-172 | the listing sends the COUNT statement and the page statement built from the clauses the builder pushed, equal to those of the specified clauses; placeholders match parameters, and the page parameters are the filter parameters followed by pageSize and off |
| AdminList.PlanExport | routes/admin.js:191-243 | the export sends the statement built from the clauses the builder pushed, equal to that of the specified clauses, with its parameters; placeholders match parameters |
| AdminList.LatestPerDriver | routes/admin.js:96-104 | a row is in the subquery exactly when its id is the largest among its driver's rows (the SQL joins on the id alone, which is the same thing because vehicle ids are unique) |
| AdminList.LatestJoinAgrees | routes/admin.js:96-104 | with unique ids the join yields at most one row per driver, and that row is the vehicle the emergency page and the driver's view show |

## Left out

- Numbers are integers. `Number(text)` ignores surrounding blanks and parses an optional sign and decimal digits; fractions, exponents, hex and `Infinity` parse as NaN. JavaScript floating point is not modelled.
- Request values are scalars. JSON objects and arrays in a body (`{"correo": {}}` makes `safeEmail` give "[object object]") and repeated query parameters (`?q=a&q=b` arrives as an array) are not modelled.
- Case mapping is ASCII only; `trim` removes the ASCII and common Unicode blanks listed in `JsValues.IsJsWhitespace`.
- SQL is modelled at the level of rows: collations, trailing-space comparison, type coercion of bound values (booleans, NaN), and `LIKE` matching are not modelled. The admin listing is modelled up to the statements and parameters it sends; the rows MySQL returns for them are not.
- The `passwordHash` column fallback of the driver login (server.js:120-137) is not modelled; the lookup reads one hash column.
- Auth.DriverLogin: only `dbg.err` of the debug object is modelled; `step`, `schema`, `rowCount`, `hashLen`, `hashPrefix`, `compareOk` and `catch` are left out.
- Concurrency is not modelled: each handler runs alone, so races between two registrations with the same email are out of scope.
- Rollback does not give back auto-increment values; the model's counters only move forward, which is what InnoDB does by default.
- The response's `created_at` (`new Date().toISOString()`) and the token expiry are left out; the clock is a parameter for stored rows.
- `qr_data` is kept as a structured payload rather than as its JSON text.
- CORS, body-size limit, `parsePort`, `listen`, the `server.on("error")` handler and `/api/health` are left out as server plumbing.
- db.js is not part of this model (connection pool settings), nor is scripts/import-sql.js (a one-off loader).
- The admin routes `/metrics`, `/brands`, `/models` and `/accidents` and the `motoristas` router are not part of this model.
- The table-name environment overrides are fixed to their defaults.
- Registry.Store.ReportIncident: when `trim` throws before the handler's `try`, Express leaves the request without a defined answer; the model records this as `IncidentUnhandled` without modelling what the client then sees.
- AdminList.PlanList and AdminList.PlanExport: the `safeQuery` helper and the `catch` answers (500 DRIVERS_FAILED, EXPORT_FAILED) are left out, since the model stops at the statements sent.
- SQL statement text is kept with its whitespace normalised and the table names written out; only placeholders and their order are exact.
- AdminList.SqlBase: the text of `LATEST_VEH_SUBQUERY` (routes/admin.js:96-104) is replaced in the statement by the words "(latest vehicle per driver)"; what the subquery selects is modelled separately by `AdminList.LatestPerDriver`.

## Findings

| source | as written | input that shows it | evidently intended | confidence | as-written member | corrected member |
|---|---|---|---|---|---|---|
| server.js:80-85 | with ADMIN_EMAIL and ADMIN_PASS unset both compare values are "", so an empty email and password match | POST /api/login with body `{}` and no admin variables set | refuse every admin login while no administrator is configured | not executed | Auth.AdminLoginUnconfiguredAcceptsEmpty | Auth.AdminLoginConfigured |
| server.js:139-163 | the rejection's `dbg.err` is "NOT_FOUND" for an unknown email and "COMPARE_FALSE" for a known one | the same wrong password sent for a registered and an unregistered email | one answer for both, without the debug detail | not executed | Auth.DriverLoginDebugRevealsAccount | Auth.DriverLoginWithoutDebug |
