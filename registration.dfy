/** What `POST /api/public/motoristas` reads from its body and which rows
    it writes, as functions of the request. The transaction itself (the
    order of the writes, the faults and the rollback) is `Registry.Store.Register`. */
module Registration {
  import opened JsValues
  import opened ServerHelpers
  import opened Tables

  /** A JSON request body; a key that is not there reads as undefined. */
  type Body = map<string, JsVal>

  function Field(b: Body, key: string): JsVal
  {
    if key in b then b[key] else Undefined
  }

  /** The aliases before position `i` are all null or undefined. */
  predicate NullishBefore(b: Body, keys: seq<string>, i: int)
    requires 0 <= i <= |keys|
  {
    forall j :: 0 <= j < i ==> Nullish(Field(b, keys[j]))
  }

  /** `v` is what `b[k0] ?? b[k1] ?? ... ?? null` must give: the value of
      the first alias that is neither null nor undefined, and null when
      every alias is. */
  predicate FirstPresent(b: Body, keys: seq<string>, v: JsVal)
  {
    && (NullishBefore(b, keys, |keys|) ==> v == Null)
    && (forall i :: 0 <= i < |keys| && !Nullish(Field(b, keys[i])) && NullishBefore(b, keys, i) ==> v == Field(b, keys[i]))
  }

  /** `b[k0] ?? b[k1] ?? ... ?? null` */
  function FirstOf(b: Body, keys: seq<string>): (v: JsVal)
    ensures FirstPresent(b, keys, v)
    ensures !v.Undefined?
  {
    if keys == [] then Null
    else
      var rest := FirstOf(b, keys[1..]);
      if !Nullish(Field(b, keys[0])) then Field(b, keys[0])
      else
        forall i | 0 <= i < |keys|
          ensures NullishBefore(b, keys, i + 1) == NullishBefore(b, keys[1..], i)
        {
          NullishBeforeShift(b, keys, i);
        }
        assert forall i :: 1 <= i < |keys| ==> keys[i] == keys[1..][i - 1];
        rest
  }

  /** When the first alias is nullish, "all aliases before `i + 1`" is
      "all aliases of the rest before `i`". */
  lemma NullishBeforeShift(b: Body, keys: seq<string>, i: int)
    requires keys != [] && Nullish(Field(b, keys[0])) && 0 <= i < |keys|
    ensures NullishBefore(b, keys, i + 1) == NullishBefore(b, keys[1..], i)
  {
    assert forall j :: 0 <= j < i ==> keys[1..][j] == keys[j + 1];
    if NullishBefore(b, keys[1..], i) {
      forall j | 0 <= j < i + 1
        ensures Nullish(Field(b, keys[j]))
      {
        if j > 0 { assert keys[j] == keys[1..][j - 1]; }
      }
    }
  }

  /** At most one value is the first present alias, so `FirstPresent` pins it. */
  lemma {:induction false} FirstPresentUnique(b: Body, keys: seq<string>, v: JsVal, w: JsVal)
    requires FirstPresent(b, keys, v) && FirstPresent(b, keys, w)
    ensures v == w
  {
    if keys != [] {
      if Nullish(Field(b, keys[0])) {
        FirstPresentRest(b, keys, v);
        FirstPresentRest(b, keys, w);
        FirstPresentUnique(b, keys[1..], v, w);
      } else {
        assert NullishBefore(b, keys, 0);
      }
    }
  }

  lemma FirstPresentRest(b: Body, keys: seq<string>, v: JsVal)
    requires keys != [] && Nullish(Field(b, keys[0])) && FirstPresent(b, keys, v)
    ensures FirstPresent(b, keys[1..], v)
  {
    var rest := keys[1..];
    NullishBeforeShift(b, keys, |rest|);
    forall i | 0 <= i < |rest| && !Nullish(Field(b, rest[i])) && NullishBefore(b, rest, i)
      ensures v == Field(b, rest[i])
    {
      NullishBeforeShift(b, keys, i);
      assert rest[i] == keys[i + 1];
    }
  }

  /** The registration request after the aliases are resolved and the email
      is normalised. */
  datatype Request = Request(
    nombreCompleto: JsVal,
    dpi: JsVal,
    numeroCasa: JsVal,
    nombrePadre: JsVal,
    nombreMadre: JsVal,
    emergencia1Nombre: JsVal,
    emergencia1Telefono: JsVal,
    emergencia2Nombre: JsVal,
    emergencia2Telefono: JsVal,
    placa: JsVal,
    marca: JsVal,
    modelo: JsVal,
    anio: Option<Numeric>,
    correoFinal: string,
    password: JsVal)

  /** `_anioRaw === null || _anioRaw === "" ? null : Number(_anioRaw)` */
  function YearOf(raw: JsVal): (y: Option<Numeric>)
    ensures y.None? <==> raw == Null || raw == Str("")
    ensures raw.Num? ==> y == Some(Finite(raw.n))
    ensures raw.Str? && raw.s != "" ==> y == Some(StringToNumber(raw.s))
    ensures raw.Undefined? ==> y == Some(NaN)
  {
    if raw == Null || raw == Str("") then None else Some(ToNumber(raw))
  }

  const PHONE1_KEYS := ["emergencia1Telefono", "emergencia1Tel"]
  const PHONE2_KEYS := ["emergencia2Telefono", "emergencia2Tel"]
  const PLATE_KEYS := ["placa", "vehiculoPlaca", "plate"]
  const BRAND_KEYS := ["marca", "vehiculoMarca", "brand"]
  const MODEL_KEYS := ["modelo", "vehiculoModelo", "model"]
  const YEAR_KEYS := ["anio", "vehiculoAnio", "year"]

  /** The body read as the handler reads it: plain fields as sent, each
      aliased field the first alias present (in the handler's order), the
      year parsed from its first present alias, and the email normalised
      from `correo || email`. */
  function ReadRequest(b: Body): (r: Request)
    ensures r.nombreCompleto == Field(b, "nombreCompleto") && r.dpi == Field(b, "dpi")
    ensures r.numeroCasa == Field(b, "numeroCasa") && r.nombrePadre == Field(b, "nombrePadre")
    ensures r.nombreMadre == Field(b, "nombreMadre") && r.password == Field(b, "password")
    ensures r.emergencia1Nombre == Field(b, "emergencia1Nombre") && r.emergencia2Nombre == Field(b, "emergencia2Nombre")
    ensures FirstPresent(b, PHONE1_KEYS, r.emergencia1Telefono) && FirstPresent(b, PHONE2_KEYS, r.emergencia2Telefono)
    ensures FirstPresent(b, PLATE_KEYS, r.placa) && FirstPresent(b, BRAND_KEYS, r.marca)
    ensures FirstPresent(b, MODEL_KEYS, r.modelo)
    ensures exists raw :: FirstPresent(b, YEAR_KEYS, raw) && r.anio == YearOf(raw)
    ensures IsTrimmed(r.correoFinal) && IsLowerCase(r.correoFinal)
    ensures r.correoFinal == SafeEmail(Or(Field(b, "correo"), Field(b, "email")))
  {
    var year := FirstOf(b, YEAR_KEYS);
    assert FirstPresent(b, YEAR_KEYS, year);
    Request(
      Field(b, "nombreCompleto"),
      Field(b, "dpi"),
      Field(b, "numeroCasa"),
      Field(b, "nombrePadre"),
      Field(b, "nombreMadre"),
      Field(b, "emergencia1Nombre"),
      FirstOf(b, PHONE1_KEYS),
      Field(b, "emergencia2Nombre"),
      FirstOf(b, PHONE2_KEYS),
      FirstOf(b, PLATE_KEYS),
      FirstOf(b, BRAND_KEYS),
      FirstOf(b, MODEL_KEYS),
      YearOf(year),
      SafeEmail(Or(Field(b, "correo"), Field(b, "email"))),
      Field(b, "password"))
  }

  /** `nombreCompleto`, `dpi`, the normalised email and `password` are all truthy. */
  predicate HasRequiredFields(r: Request)
  {
    Truthy(r.nombreCompleto) && Truthy(r.dpi) && r.correoFinal != "" && Truthy(r.password)
  }

  /** `[placa, marca, modelo, anio].some(v => v !== null && v !== "")` */
  predicate HasVehicle(r: Request)
  {
    || (r.placa != Null && r.placa != Str(""))
    || (r.marca != Null && r.marca != Str(""))
    || (r.modelo != Null && r.modelo != Str(""))
    || r.anio.Some?
  }

  /** The DPI the duplicate query compares with: `String(dpi).trim()`. */
  function DpiKey(r: Request): (k: string)
    ensures IsTrimmed(k)
    ensures r.dpi.Str? ==> k == Trim(r.dpi.s)
  {
    Trim(ToJsString(r.dpi))
  }

  /** `SELECT id FROM motoristas WHERE email = ? OR dpi = ? LIMIT 1` finds a row. */
  predicate IsDuplicate(ds: seq<DriverRow>, r: Request)
  {
    exists i :: 0 <= i < |ds| && (ds[i].email == r.correoFinal || ds[i].dpi == DpiKey(r))
  }

  const BCRYPT_ROUNDS := 10

  /** The `qr_data` object written for driver `id`. */
  function QrPayloadFor(r: Request, id: int, base: string): (p: QrPayload)
    ensures p.t == "driver" && p.id == id && p.dpi == r.dpi
    ensures p.url == base + EMERGENCY_PATH + IntToString(id)
  {
    QrPayload("driver", id, r.dpi, EmergencyUrl(base, id))
  }

  /** The `motoristas` row as inserted (qr_data still NULL). */
  function DriverInsert(r: Request, id: int, hash: string, now: int): (row: DriverRow)
    ensures row.id == id && row.email == r.correoFinal && row.passwordHash == hash && row.createdAt == now
    ensures row.nombreCompleto == ToJsString(r.nombreCompleto) && row.dpi == ToJsString(r.dpi)
    ensures row.numeroCasa.None? <==> !Truthy(r.numeroCasa)
    ensures row.nombrePadre.None? <==> !Truthy(r.nombrePadre)
    ensures row.nombreMadre.None? <==> !Truthy(r.nombreMadre)
    ensures row.numeroCasa.Some? ==> row.numeroCasa.value == ToJsString(r.numeroCasa)
    ensures row.nombrePadre.Some? ==> row.nombrePadre.value == ToJsString(r.nombrePadre)
    ensures row.nombreMadre.Some? ==> row.nombreMadre.value == ToJsString(r.nombreMadre)
    ensures row.qrData.None?
  {
    DriverRow(id, ToJsString(r.nombreCompleto), ToJsString(r.dpi),
              OrNullCell(r.numeroCasa), OrNullCell(r.nombrePadre), OrNullCell(r.nombreMadre),
              r.correoFinal, hash, None, now)
  }

  /** The committed `motoristas` row: stored DPI and name are the raw
      values' text, the email is the normalised one, and the code payload
      points at the driver's own emergency page. */
  function RegisteredDriver(r: Request, id: int, hash: string, base: string, now: int): (row: DriverRow)
    ensures row.id == id && row.email == r.correoFinal && row.passwordHash == hash
    ensures row.dpi == ToJsString(r.dpi) && row.nombreCompleto == ToJsString(r.nombreCompleto)
    ensures HasOwnCode(row, base)
  {
    DriverInsert(r, id, hash, now).(qrData := Some(QrPayloadFor(r, id, base)))
  }

  // ---------------------------------------------------------------------
  // Emergency contacts

  /** One `contactos` entry: `[motoristaId, nombre || null, telefono || null, prioridad]`. */
  datatype ContactValues = ContactValues(driverId: int, nombre: Option<string>, telefono: Option<string>, prioridad: int)

  /** A slot is used when its name or its phone is truthy. */
  predicate SlotUsed(nombre: JsVal, telefono: JsVal)
  {
    Truthy(nombre) || Truthy(telefono)
  }

  /** One slot's values: `nombre || null`, `telefono || null`. */
  function SlotValues(driverId: int, nombre: JsVal, telefono: JsVal, prioridad: int): (c: ContactValues)
    ensures c.driverId == driverId && c.prioridad == prioridad
    ensures c.nombre == OrNullCell(nombre) && c.telefono == OrNullCell(telefono)
  {
    ContactValues(driverId, OrNullCell(nombre), OrNullCell(telefono), prioridad)
  }

  /** The contacts a registration inserts: one per used slot, slot 1 with
      prioridad 1 before slot 2 with prioridad 2, each with a name or a phone. */
  function ContactsToInsert(r: Request, driverId: int): (cs: seq<ContactValues>)
    ensures |cs| == (if SlotUsed(r.emergencia1Nombre, r.emergencia1Telefono) then 1 else 0)
                    + (if SlotUsed(r.emergencia2Nombre, r.emergencia2Telefono) then 1 else 0)
    ensures forall i :: 0 <= i < |cs| ==> cs[i].driverId == driverId
    ensures forall i :: 0 <= i < |cs| ==> cs[i].nombre.Some? || cs[i].telefono.Some?
    ensures forall i :: 0 <= i < |cs| ==> cs[i].prioridad == 1 || cs[i].prioridad == 2
    ensures forall i, j :: 0 <= i < j < |cs| ==> cs[i].prioridad < cs[j].prioridad
    ensures SlotUsed(r.emergencia1Nombre, r.emergencia1Telefono) <==> |cs| > 0 && cs[0].prioridad == 1
    ensures SlotUsed(r.emergencia2Nombre, r.emergencia2Telefono) <==> |cs| > 0 && cs[|cs| - 1].prioridad == 2
    ensures SlotUsed(r.emergencia1Nombre, r.emergencia1Telefono) ==>
              cs[0] == SlotValues(driverId, r.emergencia1Nombre, r.emergencia1Telefono, 1)
    ensures SlotUsed(r.emergencia2Nombre, r.emergencia2Telefono) ==>
              cs[|cs| - 1] == SlotValues(driverId, r.emergencia2Nombre, r.emergencia2Telefono, 2)
  {
    var used1 := SlotUsed(r.emergencia1Nombre, r.emergencia1Telefono);
    var used2 := SlotUsed(r.emergencia2Nombre, r.emergencia2Telefono);
    var c1 := SlotValues(driverId, r.emergencia1Nombre, r.emergencia1Telefono, 1);
    var c2 := SlotValues(driverId, r.emergencia2Nombre, r.emergencia2Telefono, 2);
    if used1 && used2 then [c1, c2]
    else if used1 then [c1]
    else if used2 then [c2]
    else []
  }

  /** The handler's `contactos` array, grown by one push per used slot. */
  method BuildContacts(r: Request, driverId: int) returns (contactos: seq<ContactValues>)
    ensures contactos == ContactsToInsert(r, driverId)
  {
    contactos := [];
    if SlotUsed(r.emergencia1Nombre, r.emergencia1Telefono) {
      contactos := contactos + [SlotValues(driverId, r.emergencia1Nombre, r.emergencia1Telefono, 1)];
    }
    if SlotUsed(r.emergencia2Nombre, r.emergencia2Telefono) {
      contactos := contactos + [SlotValues(driverId, r.emergencia2Nombre, r.emergencia2Telefono, 2)];
    }
  }

  /** The rows of a multi-row `INSERT ... VALUES ?`: consecutive ids from `first`. */
  function WithIds(vals: seq<ContactValues>, first: int): (rows: seq<ContactRow>)
    ensures |rows| == |vals|
    ensures forall i :: 0 <= i < |vals| ==>
              rows[i] == ContactRow(first + i, vals[i].driverId, vals[i].nombre, vals[i].telefono, vals[i].prioridad)
  {
    if vals == [] then []
    else [ContactRow(first, vals[0].driverId, vals[0].nombre, vals[0].telefono, vals[0].prioridad)]
         + WithIds(vals[1..], first + 1)
  }

  // ---------------------------------------------------------------------
  // Vehicle columns

  /** `placa ? String(placa).toUpperCase() : null`: stored plates are upper-case. */
  function PlateColumn(placa: JsVal): (p: Option<string>)
    ensures p.Some? <==> Truthy(placa)
    ensures p.Some? ==> IsUpperCase(p.value) && p.value == ToUpper(ToJsString(placa))
  {
    ToUpperIdempotent(ToJsString(placa));
    if Truthy(placa) then Some(ToUpper(ToJsString(placa))) else None
  }

  /** The registration's `anio || null`: NaN and 0 become NULL. */
  function YearColumn(anio: Option<Numeric>): (y: Option<Numeric>)
    ensures y.Some? <==> anio.Some? && NumericTruthy(anio.value)
    ensures y.Some? ==> y == anio
  {
    if anio.Some? && NumericTruthy(anio.value) then anio else None
  }

  /** The vehicle columns `(placa, marca, modelo, anio)`, as the response also echoes them. */
  datatype VehicleSummary = VehicleSummary(placa: Option<string>, marca: Option<string>, modelo: Option<string>, anio: Option<Numeric>)

  function VehicleSummaryOf(r: Request): VehicleSummary
  {
    VehicleSummary(PlateColumn(r.placa), OrNullCell(r.marca), OrNullCell(r.modelo), YearColumn(r.anio))
  }

  /** The `vehiculos` row a registration inserts. */
  function VehicleInsert(r: Request, driverId: int, id: int, now: int): (v: VehicleRow)
    ensures v.id == id && v.driverId == driverId && v.createdAt == now
    ensures v.placa == PlateColumn(r.placa) && v.anio == YearColumn(r.anio)
    ensures v.marca == OrNullCell(r.marca) && v.modelo == OrNullCell(r.modelo)
    ensures v.placa.Some? ==> IsUpperCase(v.placa.value)
  {
    var s := VehicleSummaryOf(r);
    VehicleRow(id, driverId, s.placa, s.marca, s.modelo, s.anio, now)
  }

  // ---------------------------------------------------------------------
  // Properties of the request reading

  /** The 400 check on the raw body: the name, DPI and password must be
      truthy and the normalised email non-empty, so an email of blanks only
      is refused like a missing one. */
  lemma RequiredFieldsOfBody(b: Body)
    ensures HasRequiredFields(ReadRequest(b)) <==>
              && Truthy(Field(b, "nombreCompleto")) && Truthy(Field(b, "dpi")) && Truthy(Field(b, "password"))
              && SafeEmail(Or(Field(b, "correo"), Field(b, "email"))) != ""
    ensures (forall s :: Or(Field(b, "correo"), Field(b, "email")) == Str(s) && Trim(s) == "" ==> !HasRequiredFields(ReadRequest(b)))
  {
  }

  /** Skipping the vehicle insert loses nothing: without vehicle data every
      column of the row it would have written is NULL. */
  lemma NoVehicleLosesNothing(r: Request, driverId: int, id: int, now: int)
    requires !HasVehicle(r)
    ensures var v := VehicleInsert(r, driverId, id, now);
            v.placa.None? && v.marca.None? && v.modelo.None? && v.anio.None?
  {
  }

  /** The duplicate query finds a row exactly when the email lookup finds the
      normalised email or some row's DPI equals the trimmed new DPI. */
  lemma IsDuplicateIffLookup(ds: seq<DriverRow>, r: Request)
    ensures IsDuplicate(ds, r) <==>
              FindDriverByEmail(ds, r.correoFinal).Some? || exists d :: d in ds && d.dpi == DpiKey(r)
  {
    if FindDriverByEmail(ds, r.correoFinal).Some? {
      var d := FindDriverByEmail(ds, r.correoFinal).value;
      var i :| 0 <= i < |ds| && ds[i] == d;
      assert ds[i].email == r.correoFinal;
    }
  }

  /** A year that is present but not a number still counts as vehicle data,
      yet is stored as NULL. */
  lemma NonNumericYearStillMakesVehicle(b: Body, driverId: int, id: int, now: int)
    requires "anio" in b && b["anio"].Str? && b["anio"].s != ""
    requires StringToNumber(b["anio"].s) == NaN
    ensures HasVehicle(ReadRequest(b))
    ensures VehicleInsert(ReadRequest(b), driverId, id, now).anio == None
  {
    var raw := FirstOf(b, YEAR_KEYS);
    FirstOfPresent(b, YEAR_KEYS);
    var r := ReadRequest(b);
    assert r.anio == YearOf(raw);
    NonNumericYear(raw);
  }

  /** The first alias, when present and not null, wins. */
  lemma FirstOfPresent(b: Body, keys: seq<string>)
    requires keys != [] && keys[0] in b && !Nullish(b[keys[0]])
    ensures FirstOf(b, keys) == b[keys[0]]
  {
  }

  lemma NonNumericYear(raw: JsVal)
    requires raw.Str? && raw.s != "" && StringToNumber(raw.s) == NaN
    ensures YearOf(raw) == Some(NaN) && YearColumn(YearOf(raw)) == None
  {
  }

  /** The duplicate query compares the trimmed DPI with the stored one, but
      the stored DPI is the untrimmed input: a driver registered with a
      leading blank (" 1234") does not block a later "1234" under another
      email, while a driver registered with "1234" does block a later " 1234". */
  lemma DuplicateCheckTrimsOnlyTheNewDpi(row: DriverRow, r: Request, key: string, blank: char)
    requires key != [] && IsTrimmed(key) && IsJsWhitespace(blank)
    requires row.email != r.correoFinal && row.dpi == [blank] + key
    requires r.dpi == Str(key)
    ensures Trim(row.dpi) == DpiKey(r)
    ensures !IsDuplicate([row], r)
    ensures IsDuplicate([row.(dpi := key)], r.(dpi := Str([blank] + key)))
  {
    LeadingBlankTrimmed(key, blank);
    TrimOfTrimmed(key);
    assert DpiKey(r) == key;
    assert row.dpi != key by { assert |row.dpi| != |key|; }
    SingleRowDuplicate(row, r);
    assert DpiKey(r.(dpi := Str([blank] + key))) == key;
    SingleRowDuplicate(row.(dpi := key), r.(dpi := Str([blank] + key)));
  }

  /** Against a one-row table the duplicate query matches exactly when the
      email or the DPI matches. */
  lemma SingleRowDuplicate(row: DriverRow, r: Request)
    ensures IsDuplicate([row], r) <==> row.email == r.correoFinal || row.dpi == DpiKey(r)
  {
    assert [row][0] == row;
  }

  lemma LeadingBlankTrimmed(key: string, blank: char)
    requires key != [] && IsTrimmed(key) && IsJsWhitespace(blank)
    ensures Trim([blank] + key) == key
  {
    TrimOfTrimmed(key);
    assert ([blank] + key)[1..] == key;
    assert TrimStart([blank] + key) == TrimStart(key) == key;
  }

  // ---------------------------------------------------------------------
  // Transaction outcomes

  /** The awaited steps of the registration that can throw. */
  datatype Step =
    | GetConnection | BeginTransaction | DuplicateQuery | ConflictRollback
    | HashPassword | InsertDriver | InsertContacts | InsertVehicle | UpdateQrData | Commit

  /** Which step, if any, throws, and the message its error carries. */
  datatype Fault = NoFault | FailAt(step: Step, message: string)

  /** Whether `step` runs for request `r`; `dup` is what the duplicate query found. */
  predicate StepRuns(step: Step, r: Request, dup: bool)
  {
    match step
    case GetConnection => true
    case BeginTransaction => true
    case DuplicateQuery => true
    case ConflictRollback => dup
    case InsertContacts => !dup && ContactsToInsert(r, 0) != []
    case InsertVehicle => !dup && HasVehicle(r)
    case _ => !dup
  }

  /** The fault names a step that actually runs. */
  predicate FaultHits(fault: Fault, r: Request, dup: bool)
  {
    fault.FailAt? && StepRuns(fault.step, r, dup)
  }

  /** `e?.sqlMessage || e?.message || "No se pudo registrar"` */
  function ErrorText(message: string): (t: string)
    ensures t != ""
  {
    if message != "" then message else "No se pudo registrar"
  }

  datatype DriverSummary = DriverSummary(id: int, nombreCompleto: JsVal, dpi: JsVal, email: string)

  datatype RegistrationResponse =
    | Created(driver: DriverSummary, vehiculo: Option<VehicleSummary>, qrImage: string, qrUrl: string)
    | MissingFields
    | Duplicate
    | Failed(error: string)

  function Status(resp: RegistrationResponse): int
  {
    match resp
    case Created(_, _, _, _) => 201
    case MissingFields => 400
    case Duplicate => 409
    case Failed(_) => 500
  }
}
