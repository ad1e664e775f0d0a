/** The rows of the registry's tables (`motoristas`, `emergencia_contactos`,
    `vehiculos`, `qr_scans`, `incidentes`) and the single-table queries the
    handlers run against them, as functions over the table contents in
    insertion (= id) order. */
module Tables {
  import opened JsValues

  /** The `qr_data` object `{t, id, dpi, url}`, kept in structured form. */
  datatype QrPayload = QrPayload(t: string, id: int, dpi: JsVal, url: string)

  datatype DriverRow = DriverRow(
    id: int,
    nombreCompleto: string,
    dpi: string,
    numeroCasa: Option<string>,
    nombrePadre: Option<string>,
    nombreMadre: Option<string>,
    email: string,
    passwordHash: string,
    qrData: Option<QrPayload>,
    createdAt: int)

  datatype ContactRow = ContactRow(
    id: int, driverId: int, nombre: Option<string>, telefono: Option<string>, prioridad: int)

  datatype VehicleRow = VehicleRow(
    id: int, driverId: int, placa: Option<string>, marca: Option<string>,
    modelo: Option<string>, anio: Option<Numeric>, createdAt: int)

  datatype ScanRow = ScanRow(driverId: int, userAgent: Option<string>, ip: Option<string>, createdAt: int)

  datatype IncidentRow = IncidentRow(
    driverId: int, tipo: string, descripcion: Option<string>, ubicacion: Option<string>,
    reportadoPor: Option<string>, telefonoReportante: Option<string>, estado: string, createdAt: int)

  /** How a bound parameter lands in a text column: null stays NULL, any
      other value is stored as its string form. */
  function Cell(v: JsVal): Option<string>
  {
    if Nullish(v) then None else Some(ToJsString(v))
  }

  /** `v || null` bound into a text column: NULL exactly when `v` is falsy,
      otherwise the string form of `v`. */
  function OrNullCell(v: JsVal): (c: Option<string>)
    ensures c.None? <==> !Truthy(v)
    ensures c.Some? ==> c.value == ToJsString(v)
  {
    Cell(Or(v, Null))
  }

  const EMERGENCY_PATH := "/emergency/"

  /** The public page a driver's code points to: `${PUBLIC_BASE_URL}/emergency/${id}`. */
  function EmergencyUrl(base: string, id: int): string
  {
    base + EMERGENCY_PATH + IntToString(id)
  }

  /** `(process.env.PUBLIC_BASE_URL || "http://localhost:3000").trim()` */
  function PublicBaseUrl(env: Option<string>): (base: string)
    ensures IsTrimmed(base)
    ensures env.None? || env == Some("") ==> base == "http://localhost:3000"
  {
    TrimOfTrimmed("http://localhost:3000");
    Trim(if env.Some? && env.value != "" then env.value else "http://localhost:3000")
  }

  /** A configured, non-empty `PUBLIC_BASE_URL` is used trimmed. */
  lemma PublicBaseUrlOfSetting(env: Option<string>)
    requires env.Some? && env.value != ""
    ensures PublicBaseUrl(env) == Trim(env.value)
  {
  }

  /** What the QR renderer (`QRCode.toDataURL`) gives back: a data URL or an error. */
  datatype Rendered = DataUrl(image: string) | RenderError(message: string)

  /** A driver's stored code payload points at its own emergency page and
      repeats its id and DPI. */
  predicate HasOwnCode(d: DriverRow, base: string)
  {
    && d.qrData.Some?
    && d.qrData.value.t == "driver"
    && d.qrData.value.id == d.id
    && d.qrData.value.url == EmergencyUrl(base, d.id)
    && ToJsString(d.qrData.value.dpi) == d.dpi
  }

  /** `UPDATE motoristas SET qr_data = ? WHERE id = ?` */
  function SetQrData(ds: seq<DriverRow>, id: int, p: QrPayload): (r: seq<DriverRow>)
    ensures |r| == |ds|
    ensures forall i :: 0 <= i < |ds| ==> r[i] == (if ds[i].id == id then ds[i].(qrData := Some(p)) else ds[i])
  {
    if ds == [] then []
    else [if ds[0].id == id then ds[0].(qrData := Some(p)) else ds[0]] + SetQrData(ds[1..], id, p)
  }

  // ---------------------------------------------------------------------
  // Single-row lookups (`WHERE ... LIMIT 1`)

  /** `SELECT ... FROM motoristas WHERE id = ? LIMIT 1` */
  function FindDriverById(ds: seq<DriverRow>, id: int): (r: Option<DriverRow>)
    ensures r.None? <==> forall d :: d in ds ==> d.id != id
    ensures r.Some? ==> r.value in ds && r.value.id == id
  {
    if ds == [] then None
    else if ds[0].id == id then Some(ds[0])
    else FindDriverById(ds[1..], id)
  }

  /** `SELECT ... FROM motoristas WHERE email = ? LIMIT 1` */
  function FindDriverByEmail(ds: seq<DriverRow>, email: string): (r: Option<DriverRow>)
    ensures r.None? <==> forall d :: d in ds ==> d.email != email
    ensures r.Some? ==> r.value in ds && r.value.email == email
  {
    if ds == [] then None
    else if ds[0].email == email then Some(ds[0])
    else FindDriverByEmail(ds[1..], email)
  }

  /** With strictly increasing ids the lookup by id finds exactly the row
      that carries the id. */
  lemma FindDriverByIdUnique(ds: seq<DriverRow>, k: int)
    requires forall i, j :: 0 <= i < j < |ds| ==> ds[i].id < ds[j].id
    requires 0 <= k < |ds|
    ensures FindDriverById(ds, ds[k].id) == Some(ds[k])
  {
    var r := FindDriverById(ds, ds[k].id).value;
    var j :| 0 <= j < |ds| && ds[j] == r;
    assert ds[j].id == ds[k].id;
  }

  // ---------------------------------------------------------------------
  // Emergency contacts: `ORDER BY prioridad ASC, id ASC LIMIT 1`

  /** `a` sorts no later than `b` under `ORDER BY prioridad ASC, id ASC`. */
  predicate RanksBefore(a: ContactRow, b: ContactRow)
  {
    a.prioridad < b.prioridad || (a.prioridad == b.prioridad && a.id <= b.id)
  }

  /** The first contact of driver `d` under `ORDER BY prioridad ASC, id ASC`:
      none exactly when the driver has no contact, otherwise one of the
      driver's contacts that ranks before every other. */
  function PrimaryContact(cs: seq<ContactRow>, d: int): (r: Option<ContactRow>)
    ensures r.None? <==> forall c :: c in cs ==> c.driverId != d
    ensures r.Some? ==> r.value in cs && r.value.driverId == d
    ensures r.Some? ==> forall c :: c in cs && c.driverId == d ==> RanksBefore(r.value, c)
  {
    if cs == [] then None
    else
      var rest := PrimaryContact(cs[1..], d);
      assert forall c :: c in cs ==> c == cs[0] || c in cs[1..];
      if cs[0].driverId != d then rest
      else if rest.Some? && !RanksBefore(cs[0], rest.value) then rest
      else Some(cs[0])
  }

  /** Contact ids are strictly increasing in table order (auto-increment). */
  predicate ContactIdsIncreasing(cs: seq<ContactRow>)
  {
    forall i, j :: 0 <= i < j < |cs| ==> cs[i].id < cs[j].id
  }

  /** With distinct ids the ordering is total, so the first contact is
      determined: any contact of `d` that ranks before all others is it. */
  lemma PrimaryContactUnique(cs: seq<ContactRow>, d: int, c: ContactRow)
    requires ContactIdsIncreasing(cs)
    requires c in cs && c.driverId == d
    requires forall c2 :: c2 in cs && c2.driverId == d ==> RanksBefore(c, c2)
    ensures PrimaryContact(cs, d) == Some(c)
  {
    var r := PrimaryContact(cs, d).value;
    assert RanksBefore(r, c) && RanksBefore(c, r);
    var i :| 0 <= i < |cs| && cs[i] == c;
    var j :| 0 <= j < |cs| && cs[j] == r;
    assert cs[i].id == cs[j].id;
  }

  /** Number of contacts that belong to driver `d`. */
  function ContactCount(cs: seq<ContactRow>, d: int): nat
  {
    if cs == [] then 0
    else ContactCount(cs[..|cs| - 1], d) + (if cs[|cs| - 1].driverId == d then 1 else 0)
  }

  /** Counting distributes over appending rows. */
  lemma {:induction false} ContactCountAppend(a: seq<ContactRow>, b: seq<ContactRow>, d: int)
    ensures ContactCount(a + b, d) == ContactCount(a, d) + ContactCount(b, d)
    decreases |b|
  {
    if b == [] {
      assert a + b == a;
    } else {
      assert (a + b)[..|a + b| - 1] == a + b[..|b| - 1];
      ContactCountAppend(a, b[..|b| - 1], d);
    }
  }

  /** A driver none of whose rows are in the table has count zero. */
  lemma {:induction false} ContactCountZero(cs: seq<ContactRow>, d: int)
    requires forall c :: c in cs ==> c.driverId != d
    ensures ContactCount(cs, d) == 0
  {
    if cs != [] {
      assert forall c :: c in cs[..|cs| - 1] ==> c in cs;
      ContactCountZero(cs[..|cs| - 1], d);
    }
  }

  // ---------------------------------------------------------------------
  // Vehicles: `ORDER BY id DESC LIMIT 1`

  /** The position of driver `d`'s vehicle row with the largest id: none
      exactly when the driver has no vehicle row. */
  function LatestVehicleIndex(vs: seq<VehicleRow>, d: int): (r: Option<nat>)
    ensures r.None? <==> forall v :: v in vs ==> v.driverId != d
    ensures r.Some? ==> r.value < |vs| && vs[r.value].driverId == d
    ensures r.Some? ==> forall k :: 0 <= k < |vs| && vs[k].driverId == d ==> vs[k].id <= vs[r.value].id
  {
    if vs == [] then None
    else
      var last := |vs| - 1;
      var rest := LatestVehicleIndex(vs[..last], d);
      assert forall v :: v in vs ==> v == vs[last] || v in vs[..last];
      if vs[last].driverId != d then rest
      else if rest.Some? && vs[rest.value].id > vs[last].id then rest
      else Some(last)
  }

  /** The vehicle the resolver and the driver's own vehicle view show. */
  function LatestVehicle(vs: seq<VehicleRow>, d: int): (r: Option<VehicleRow>)
    ensures r.None? <==> forall v :: v in vs ==> v.driverId != d
    ensures r.Some? ==> r.value in vs && r.value.driverId == d
    ensures r.Some? ==> forall v :: v in vs && v.driverId == d ==> v.id <= r.value.id
  {
    match LatestVehicleIndex(vs, d)
    case None => None
    case Some(k) => Some(vs[k])
  }

  /** Vehicle ids are strictly increasing in table order (auto-increment). */
  predicate VehicleIdsIncreasing(vs: seq<VehicleRow>)
  {
    forall i, j :: 0 <= i < j < |vs| ==> vs[i].id < vs[j].id
  }

  /** Number of vehicle rows that belong to driver `d`. */
  function VehicleCount(vs: seq<VehicleRow>, d: int): nat
  {
    if vs == [] then 0
    else VehicleCount(vs[..|vs| - 1], d) + (if vs[|vs| - 1].driverId == d then 1 else 0)
  }

  /** A table with no row of `d` has count zero for `d`, and one with a row
      of `d` has a positive count. */
  lemma {:induction false} VehicleCountPositive(vs: seq<VehicleRow>, d: int)
    ensures VehicleCount(vs, d) == 0 <==> forall v :: v in vs ==> v.driverId != d
  {
    if vs != [] {
      var last := |vs| - 1;
      assert forall v :: v in vs ==> v == vs[last] || v in vs[..last];
      assert forall v :: v in vs[..last] ==> v in vs;
      VehicleCountPositive(vs[..last], d);
    }
  }

  /** A driver owns no more rows than the table has. */
  lemma {:induction false} ContactCountBound(cs: seq<ContactRow>, d: int)
    ensures ContactCount(cs, d) <= |cs|
  {
    if cs != [] {
      ContactCountBound(cs[..|cs| - 1], d);
    }
  }

  /** With strictly increasing ids, a row of `d` whose id is at least every
      other row of `d` is the one `ORDER BY id DESC LIMIT 1` picks. */
  lemma LatestVehicleIndexUnique(vs: seq<VehicleRow>, d: int, k: int)
    requires VehicleIdsIncreasing(vs)
    requires 0 <= k < |vs| && vs[k].driverId == d
    requires forall j :: 0 <= j < |vs| && vs[j].driverId == d ==> vs[j].id <= vs[k].id
    ensures LatestVehicleIndex(vs, d) == Some(k)
  {
    var r := LatestVehicleIndex(vs, d).value;
    assert vs[r].id <= vs[k].id && vs[k].id <= vs[r].id;
  }

  /** Appending one row adds one to its owner's count and nothing to the others'. */
  lemma VehicleCountSnoc(vs: seq<VehicleRow>, v: VehicleRow, d: int)
    ensures VehicleCount(vs + [v], d) == VehicleCount(vs, d) + (if v.driverId == d then 1 else 0)
  {
    assert (vs + [v])[..|vs|] == vs;
  }

  /** Counts depend only on who owns each row. */
  lemma {:induction false} VehicleCountSameOwners(a: seq<VehicleRow>, b: seq<VehicleRow>, d: int)
    requires |a| == |b|
    requires forall i :: 0 <= i < |a| ==> a[i].driverId == b[i].driverId
    ensures VehicleCount(a, d) == VehicleCount(b, d)
  {
    if a != [] {
      VehicleCountSameOwners(a[..|a| - 1], b[..|b| - 1], d);
    }
  }

  /** `UPDATE vehiculos SET placa=?, marca=?, modelo=?, anio=? WHERE id=?` */
  function UpdateVehicleById(vs: seq<VehicleRow>, id: int, placa: Option<string>, marca: Option<string>,
                             modelo: Option<string>, anio: Option<Numeric>): (r: seq<VehicleRow>)
    ensures |r| == |vs|
    ensures forall i :: 0 <= i < |vs| ==>
              r[i] == (if vs[i].id == id then vs[i].(placa := placa, marca := marca, modelo := modelo, anio := anio) else vs[i])
  {
    if vs == [] then []
    else [if vs[0].id == id then vs[0].(placa := placa, marca := marca, modelo := modelo, anio := anio) else vs[0]]
         + UpdateVehicleById(vs[1..], id, placa, marca, modelo, anio)
  }
}
