/** The registry's database as one object whose tables the handlers change
    in place: driver registration (one transaction), the public emergency
    lookup with its scan log, the driver's vehicle upsert and the public
    incident report. Auto-increment counters are fields; a rolled-back
    transaction restores the rows but not the counters. */
module Registry {
  import opened JsValues
  import opened ServerHelpers
  import opened Tables
  import opened Registration
  import opened Views

  // ---------------------------------------------------------------------
  // Table invariants

  function IdsOf(ds: seq<DriverRow>): (ids: seq<int>)
    ensures |ids| == |ds| && forall i :: 0 <= i < |ds| ==> ids[i] == ds[i].id
  {
    seq(|ds|, i requires 0 <= i < |ds| => ds[i].id)
  }

  /** Driver ids come from the counter and increase, emails are unique and
      normalised, and every committed driver carries its own code payload. */
  predicate DriversWellFormed(ds: seq<DriverRow>, next: int, base: string)
  {
    && 1 <= next
    && (forall i :: 0 <= i < |ds| ==> 1 <= ds[i].id < next)
    && (forall i, j :: 0 <= i < j < |ds| ==> ds[i].id < ds[j].id)
    && (forall i, j :: 0 <= i < j < |ds| ==> ds[i].email != ds[j].email)
    && (forall i :: 0 <= i < |ds| ==> IsTrimmed(ds[i].email) && IsLowerCase(ds[i].email))
    && (forall i :: 0 <= i < |ds| ==> HasOwnCode(ds[i], base))
  }

  /** Contact ids come from the counter and increase, every contact belongs
      to a driver, has a name or a phone and prioridad 1 or 2, and no driver
      has more than two. */
  ghost predicate ContactsWellFormed(cs: seq<ContactRow>, ds: seq<DriverRow>, next: int)
  {
    && 1 <= next
    && (forall i :: 0 <= i < |cs| ==> 1 <= cs[i].id < next)
    && ContactIdsIncreasing(cs)
    && (forall i :: 0 <= i < |cs| ==> cs[i].driverId in IdsOf(ds))
    && (forall i :: 0 <= i < |cs| ==> cs[i].prioridad == 1 || cs[i].prioridad == 2)
    && (forall i :: 0 <= i < |cs| ==> cs[i].nombre.Some? || cs[i].telefono.Some?)
    && (forall d :: ContactCount(cs, d) <= 2)
  }

  /** Vehicle ids come from the counter and increase, and stored plates are upper-case. */
  predicate VehiclesWellFormed(vs: seq<VehicleRow>, next: int)
  {
    && 1 <= next
    && (forall i :: 0 <= i < |vs| ==> 1 <= vs[i].id < next)
    && VehicleIdsIncreasing(vs)
    && (forall i :: 0 <= i < |vs| ==> vs[i].placa.Some? ==> IsUpperCase(vs[i].placa.value))
  }

  // ---------------------------------------------------------------------
  // Registration keeps the tables well formed

  /** Appending a new, normalised, coded driver with a fresh email and the
      next id keeps the driver table well formed. */
  lemma DriverAppendWellFormed(ds: seq<DriverRow>, next: int, base: string, row: DriverRow)
    requires DriversWellFormed(ds, next, base)
    requires row.id == next && HasOwnCode(row, base)
    requires IsTrimmed(row.email) && IsLowerCase(row.email)
    requires forall i :: 0 <= i < |ds| ==> ds[i].email != row.email
    ensures DriversWellFormed(ds + [row], next + 1, base)
  {
    var all := ds + [row];
    assert forall i :: 0 <= i < |ds| ==> all[i] == ds[i];
    assert all[|ds|] == row;
  }

  /** Adding at most two contacts of a brand-new driver, with consecutive
      ids from the counter, keeps the contact table well formed. */
  lemma ContactsAppendWellFormed(cs: seq<ContactRow>, ds: seq<DriverRow>, next: int, row: DriverRow, vals: seq<ContactValues>)
    requires ContactsWellFormed(cs, ds, next)
    requires forall i :: 0 <= i < |ds| ==> ds[i].id < row.id
    requires |vals| <= 2
    requires forall i :: 0 <= i < |vals| ==> vals[i].driverId == row.id
    requires forall i :: 0 <= i < |vals| ==> vals[i].prioridad == 1 || vals[i].prioridad == 2
    requires forall i :: 0 <= i < |vals| ==> vals[i].nombre.Some? || vals[i].telefono.Some?
    ensures ContactsWellFormed(cs + WithIds(vals, next), ds + [row], next + |vals|)
  {
    var added := WithIds(vals, next);
    ContactsAppendOwners(cs, ds, row, added);
    ContactsAppendCounts(cs, ds, row, added);
  }

  lemma ContactsAppendOwners(cs: seq<ContactRow>, ds: seq<DriverRow>, row: DriverRow, added: seq<ContactRow>)
    requires forall i :: 0 <= i < |cs| ==> cs[i].driverId in IdsOf(ds)
    requires forall i :: 0 <= i < |added| ==> added[i].driverId == row.id
    ensures forall i :: 0 <= i < |cs + added| ==> (cs + added)[i].driverId in IdsOf(ds + [row])
  {
    var all := cs + added;
    assert IdsOf(ds + [row]) == IdsOf(ds) + [row.id];
    forall i | 0 <= i < |all|
      ensures all[i].driverId in IdsOf(ds + [row])
    {
      if i >= |cs| {
        assert all[i] == added[i - |cs|];
        assert IdsOf(ds + [row])[|ds|] == row.id;
      }
    }
  }

  lemma ContactsAppendCounts(cs: seq<ContactRow>, ds: seq<DriverRow>, row: DriverRow, added: seq<ContactRow>)
    requires forall d :: ContactCount(cs, d) <= 2
    requires forall i :: 0 <= i < |cs| ==> cs[i].driverId in IdsOf(ds)
    requires forall i :: 0 <= i < |ds| ==> ds[i].id < row.id
    requires |added| <= 2
    requires forall i :: 0 <= i < |added| ==> added[i].driverId == row.id
    ensures forall d :: ContactCount(cs + added, d) <= 2
  {
    forall d
      ensures ContactCount(cs + added, d) <= 2
    {
      ContactCountAppend(cs, added, d);
      if d == row.id {
        forall c | c in cs
          ensures c.driverId != d
        {
          var i :| 0 <= i < |cs| && cs[i] == c;
          assert cs[i].driverId in IdsOf(ds);
        }
        ContactCountZero(cs, d);
        ContactCountBound(added, d);
      } else {
        ContactCountZero(added, d);
      }
    }
  }

  /** A committed registration keeps all three tables well formed. */
  lemma RegistrationKeepsWellFormed(ds: seq<DriverRow>, cs: seq<ContactRow>, vs: seq<VehicleRow>,
                                    nd: int, nc: int, nv: int, base: string, r: Request, hash: string, now: int)
    requires TablesWellFormed(ds, cs, vs, nd, nc, nv, base)
    requires forall i :: 0 <= i < |ds| ==> ds[i].email != r.correoFinal
    requires IsTrimmed(r.correoFinal) && IsLowerCase(r.correoFinal)
    ensures var added := ContactsToInsert(r, nd);
            TablesWellFormed(ds + [RegisteredDriver(r, nd, hash, base, now)],
                             cs + WithIds(added, nc),
                             vs + (if HasVehicle(r) then [VehicleInsert(r, nd, nv, now)] else []),
                             nd + 1, nc + |added|, if HasVehicle(r) then nv + 1 else nv, base)
  {
    var row := RegisteredDriver(r, nd, hash, base, now);
    var added := if HasVehicle(r) then [VehicleInsert(r, nd, nv, now)] else [];
    TablesAppendWellFormed(ds, cs, vs, nd, nc, nv, base, row, ContactsToInsert(r, nd), added);
  }

  /** A new driver row, its contacts and at most one vehicle row, all with
      ids from the counters, keep the three tables well formed. */
  lemma TablesAppendWellFormed(ds: seq<DriverRow>, cs: seq<ContactRow>, vs: seq<VehicleRow>, nd: int, nc: int, nv: int,
                               base: string, row: DriverRow, vals: seq<ContactValues>, added: seq<VehicleRow>)
    requires TablesWellFormed(ds, cs, vs, nd, nc, nv, base)
    requires row.id == nd && HasOwnCode(row, base) && IsTrimmed(row.email) && IsLowerCase(row.email)
    requires forall i :: 0 <= i < |ds| ==> ds[i].email != row.email
    requires |vals| <= 2
    requires forall i :: 0 <= i < |vals| ==> vals[i].driverId == row.id
    requires forall i :: 0 <= i < |vals| ==> vals[i].prioridad == 1 || vals[i].prioridad == 2
    requires forall i :: 0 <= i < |vals| ==> vals[i].nombre.Some? || vals[i].telefono.Some?
    requires |added| <= 1
    requires forall i :: 0 <= i < |added| ==> added[i].id == nv && (added[i].placa.Some? ==> IsUpperCase(added[i].placa.value))
    ensures TablesWellFormed(ds + [row], cs + WithIds(vals, nc), vs + added, nd + 1, nc + |vals|, nv + |added|, base)
  {
    DriverAppendWellFormed(ds, nd, base, row);
    ContactsAppendWellFormed(cs, ds, nc, row, vals);
    if added != [] {
      VehicleAppendWellFormed(vs, nv, added[0]);
      assert vs + added == vs + [added[0]];
    }
  }

  /** Appending a vehicle row with the counter's id and an upper-case plate
      keeps the vehicle table well formed. */
  lemma VehicleAppendWellFormed(vs: seq<VehicleRow>, next: int, v: VehicleRow)
    requires VehiclesWellFormed(vs, next)
    requires v.id == next && (v.placa.Some? ==> IsUpperCase(v.placa.value))
    ensures VehiclesWellFormed(vs + [v], next + 1)
  {
  }

  /** Counters only move forward; tables well formed under smaller counters
      stay well formed (the rows a rollback brings back). */
  lemma WellFormedLargerCounters(ds: seq<DriverRow>, cs: seq<ContactRow>, vs: seq<VehicleRow>,
                                 nd: int, nc: int, nv: int, nd': int, nc': int, nv': int, base: string)
    requires TablesWellFormed(ds, cs, vs, nd, nc, nv, base)
    requires nd <= nd' && nc <= nc' && nv <= nv'
    ensures TablesWellFormed(ds, cs, vs, nd', nc', nv', base)
  {
  }

  /** Setting the code payload of the just-inserted last row changes only that row. */
  lemma SetQrDataOfNewRow(ds: seq<DriverRow>, row: DriverRow, p: QrPayload)
    requires forall i :: 0 <= i < |ds| ==> ds[i].id < row.id
    ensures SetQrData(ds + [row], row.id, p) == ds + [row.(qrData := Some(p))]
  {
    var after := SetQrData(ds + [row], row.id, p);
    assert forall i :: 0 <= i < |ds| ==> after[i] == ds[i];
  }

  // ---------------------------------------------------------------------
  // Vehicle upsert (PUT /api/driver/vehicle)

  /** The `placa, marca, modelo, anio` a PUT writes. */
  datatype VehicleFields = VehicleFields(placa: Option<string>, marca: Option<string>, modelo: Option<string>, anio: Option<Numeric>)

  /** The PUT's `anio ? Number(anio) : null`: unlike registration, a truthy
      year that is not a number is passed on as NaN. */
  function PutYear(anio: JsVal): (y: Option<Numeric>)
    ensures y.Some? <==> Truthy(anio)
    ensures y.Some? ==> y.value == ToNumber(anio)
  {
    if Truthy(anio) then Some(ToNumber(anio)) else None
  }

  function VehicleFieldsOf(b: Body): (f: VehicleFields)
    ensures f.placa.Some? <==> Truthy(Field(b, "placa"))
    ensures f.placa.Some? ==> IsUpperCase(f.placa.value)
    ensures f.anio.Some? <==> Truthy(Field(b, "anio"))
    ensures f.placa == PlateColumn(Field(b, "placa")) && f.anio == PutYear(Field(b, "anio"))
    ensures f.marca == OrNullCell(Field(b, "marca")) && f.modelo == OrNullCell(Field(b, "modelo"))
  {
    VehicleFields(PlateColumn(Field(b, "placa")), OrNullCell(Field(b, "marca")),
                  OrNullCell(Field(b, "modelo")), PutYear(Field(b, "anio")))
  }

  function FieldsOf(v: VehicleRow): VehicleFields
  {
    VehicleFields(v.placa, v.marca, v.modelo, v.anio)
  }

  /** The vehicle table after a PUT by driver `u`: the row of `u` with the
      largest id takes the new columns or, when `u` has none, a row with the
      next id is added. */
  function Upserted(vs: seq<VehicleRow>, u: int, f: VehicleFields, next: int, now: int): (r: seq<VehicleRow>)
    ensures |vs| <= |r| <= |vs| + 1
    ensures forall i :: 0 <= i < |vs| && vs[i].driverId != u ==> r[i] == vs[i]
    ensures forall i :: 0 <= i < |r| && (i >= |vs| || vs[i] != r[i]) ==> r[i].driverId == u && FieldsOf(r[i]) == f
  {
    match LatestVehicleIndex(vs, u)
    case Some(k) => vs[k := vs[k].(placa := f.placa, marca := f.marca, modelo := f.modelo, anio := f.anio)]
    case None => vs + [VehicleRow(next, u, f.placa, f.marca, f.modelo, f.anio, now)]
  }

  /** The vehicle counter after the PUT. */
  function UpsertNext(vs: seq<VehicleRow>, u: int, next: int): int
  {
    if LatestVehicleIndex(vs, u).None? then next + 1 else next
  }

  /** A PUT keeps the vehicle table well formed. */
  lemma UpsertKeepsWellFormed(vs: seq<VehicleRow>, u: int, f: VehicleFields, next: int, now: int)
    requires VehiclesWellFormed(vs, next)
    requires f.placa.Some? ==> IsUpperCase(f.placa.value)
    ensures VehiclesWellFormed(Upserted(vs, u, f, next, now), UpsertNext(vs, u, next))
  {
  }

  /** After a PUT the caller's current vehicle (what GET returns) carries
      exactly the columns written. */
  lemma UpsertLatestWins(vs: seq<VehicleRow>, u: int, f: VehicleFields, next: int, now: int)
    requires VehiclesWellFormed(vs, next)
    ensures LatestVehicle(Upserted(vs, u, f, next, now), u).Some?
    ensures FieldsOf(LatestVehicle(Upserted(vs, u, f, next, now), u).value) == f
  {
    var r := Upserted(vs, u, f, next, now);
    match LatestVehicleIndex(vs, u) {
      case Some(k) =>
        LatestVehicleIndexUnique(r, u, k);
      case None =>
        assert forall j :: 0 <= j < |r| && r[j].driverId == u ==> j == |vs|;
        LatestVehicleIndexUnique(r, u, |vs|);
    }
  }

  /** After a PUT the caller has exactly one vehicle row if they had none,
      and as many as before otherwise. */
  lemma UpsertCount(vs: seq<VehicleRow>, u: int, f: VehicleFields, next: int, now: int)
    ensures VehicleCount(Upserted(vs, u, f, next, now), u) == if VehicleCount(vs, u) == 0 then 1 else VehicleCount(vs, u)
  {
    var r := Upserted(vs, u, f, next, now);
    VehicleCountPositive(vs, u);
    match LatestVehicleIndex(vs, u) {
      case Some(k) =>
        VehicleCountSameOwners(r, vs, u);
      case None =>
        VehicleCountSnoc(vs, VehicleRow(next, u, f.placa, f.marca, f.modelo, f.anio, now), u);
    }
  }

  /** A PUT by `u` leaves every other driver's current vehicle and row count as they were. */
  lemma UpsertOthersUntouched(vs: seq<VehicleRow>, u: int, f: VehicleFields, next: int, now: int, d: int)
    requires VehiclesWellFormed(vs, next)
    requires d != u
    ensures LatestVehicle(Upserted(vs, u, f, next, now), d) == LatestVehicle(vs, d)
    ensures VehicleCount(Upserted(vs, u, f, next, now), d) == VehicleCount(vs, d)
    ensures forall i :: 0 <= i < |vs| && vs[i].driverId == d ==> Upserted(vs, u, f, next, now)[i] == vs[i]
  {
    match LatestVehicleIndex(vs, u) {
      case Some(k) =>
        RewriteKeepsOthers(vs, k, vs[k].(placa := f.placa, marca := f.marca, modelo := f.modelo, anio := f.anio), d);
      case None =>
        AppendKeepsOthers(vs, VehicleRow(next, u, f.placa, f.marca, f.modelo, f.anio, now), d);
    }
  }

  /** Rewriting a row of another driver in place, keeping its id and owner,
      leaves the current vehicle and row count of `d` as they were. */
  lemma RewriteKeepsOthers(vs: seq<VehicleRow>, k: int, row: VehicleRow, d: int)
    requires VehicleIdsIncreasing(vs)
    requires 0 <= k < |vs| && row.id == vs[k].id && row.driverId == vs[k].driverId && row.driverId != d
    ensures LatestVehicle(vs[k := row], d) == LatestVehicle(vs, d)
    ensures VehicleCount(vs[k := row], d) == VehicleCount(vs, d)
  {
    var r := vs[k := row];
    VehicleCountSameOwners(r, vs, d);
    match LatestVehicleIndex(vs, d) {
      case Some(m) =>
        LatestVehicleIndexUnique(r, d, m);
      case None =>
        forall v | v in r
          ensures v.driverId != d
        {
          var j :| 0 <= j < |r| && r[j] == v;
          assert vs[j] in vs;
        }
    }
  }

  /** Appending a row of another driver with a larger id leaves the current
      vehicle and row count of `d` as they were. */
  lemma AppendKeepsOthers(vs: seq<VehicleRow>, v: VehicleRow, d: int)
    requires VehicleIdsIncreasing(vs)
    requires forall i :: 0 <= i < |vs| ==> vs[i].id < v.id
    requires v.driverId != d
    ensures LatestVehicle(vs + [v], d) == LatestVehicle(vs, d)
    ensures VehicleCount(vs + [v], d) == VehicleCount(vs, d)
  {
    var r := vs + [v];
    VehicleCountSnoc(vs, v, d);
    match LatestVehicleIndex(vs, d) {
      case Some(m) =>
        LatestVehicleIndexUnique(r, d, m);
      case None =>
        assert forall w :: w in r ==> w == v || w in vs;
    }
  }

  /** With distinct ids, updating the latest row by its id is updating it in place. */
  lemma UpdateByIdIsUpsert(vs: seq<VehicleRow>, u: int, f: VehicleFields, next: int, now: int, k: nat)
    requires VehicleIdsIncreasing(vs)
    requires LatestVehicleIndex(vs, u) == Some(k)
    ensures UpdateVehicleById(vs, vs[k].id, f.placa, f.marca, f.modelo, f.anio) == Upserted(vs, u, f, next, now)
  {
    var a := UpdateVehicleById(vs, vs[k].id, f.placa, f.marca, f.modelo, f.anio);
    var b := Upserted(vs, u, f, next, now);
    assert forall i :: 0 <= i < |vs| ==> a[i] == b[i] by {
      forall i | 0 <= i < |vs| ensures a[i] == b[i] {
        if i != k {
          assert vs[i].id != vs[k].id;
        }
      }
    }
  }

  /** Two PUTs in a row: the current vehicle shows the second payload, and
      the caller still has exactly one row if they had none before. */
  lemma UpsertTwice(vs: seq<VehicleRow>, u: int, f1: VehicleFields, f2: VehicleFields, next: int, now1: int, now2: int)
    requires VehiclesWellFormed(vs, next)
    requires f1.placa.Some? ==> IsUpperCase(f1.placa.value)
    requires f2.placa.Some? ==> IsUpperCase(f2.placa.value)
    ensures var once := Upserted(vs, u, f1, next, now1);
            var twice := Upserted(once, u, f2, UpsertNext(vs, u, next), now2);
            && LatestVehicle(twice, u).Some?
            && FieldsOf(LatestVehicle(twice, u).value) == f2
            && VehicleCount(twice, u) == if VehicleCount(vs, u) == 0 then 1 else VehicleCount(vs, u)
  {
    UpsertKeepsWellFormed(vs, u, f1, next, now1);
    UpsertCount(vs, u, f1, next, now1);
    var once := Upserted(vs, u, f1, next, now1);
    UpsertLatestWins(once, u, f2, UpsertNext(vs, u, next), now2);
    UpsertCount(once, u, f2, UpsertNext(vs, u, next), now2);
  }

  /** A PUT followed by a GET reads back the written columns. */
  lemma PutThenGet(vs: seq<VehicleRow>, u: int, b: Body, next: int, now: int)
    requires VehiclesWellFormed(vs, next)
    ensures var got := GetOwnVehicle(Upserted(vs, u, VehicleFieldsOf(b), next, now), u, false);
            && got.VehicleFound? && got.vehicle.Some?
            && got.vehicle.value.placa == VehicleFieldsOf(b).placa
            && got.vehicle.value.marca == VehicleFieldsOf(b).marca
            && got.vehicle.value.modelo == VehicleFieldsOf(b).modelo
            && got.vehicle.value.anio == VehicleFieldsOf(b).anio
  {
    UpsertLatestWins(vs, u, VehicleFieldsOf(b), next, now);
  }

  // ---------------------------------------------------------------------
  // Incident report (POST /api/public/incidentes)

  /** `s || null` for a trimmed text. */
  function NonEmpty(s: string): (r: Option<string>)
    ensures r.None? <==> s == ""
  {
    if s == "" then None else Some(s)
  }

  /** `v || null` for an optional request header or address. */
  function OrNull(v: Option<string>): (r: Option<string>)
    ensures r.Some? ==> r.value != ""
  {
    if v.Some? && v.value != "" then v else None
  }

  const DEFAULT_ESTADO := "pendiente"

  /** `(v || "").trim()` throws: `v` is truthy but not a string. */
  predicate TrimThrows(v: JsVal)
  {
    Truthy(v) && !v.Str?
  }

  /** How the handler reads the body before its `try`: a truthy field that
      is not a string throws, a zero or non-numeric `motorista_id` or an
      empty `tipo` is refused, otherwise the row to insert. */
  datatype IncidentInput = IncidentThrows | IncidentMissing | IncidentOk(row: IncidentRow)

  function ReadIncident(b: Body, now: int): (p: IncidentInput)
    ensures p.IncidentThrows? <==>
              || TrimThrows(Field(b, "tipo")) || TrimThrows(Field(b, "descripcion")) || TrimThrows(Field(b, "ubicacion"))
              || TrimThrows(Field(b, "reportado_por")) || TrimThrows(Field(b, "telefono_reportante")) || TrimThrows(Field(b, "estado"))
    ensures p.IncidentMissing? <==>
              && !p.IncidentThrows?
              && (!NumericTruthy(ToNumber(Field(b, "motorista_id"))) || TrimmedOrEmpty(Field(b, "tipo")) == Some(""))
    ensures p.IncidentOk? ==>
              && ToNumber(Field(b, "motorista_id")) == Finite(p.row.driverId) && p.row.driverId != 0
              && p.row.tipo != "" && IsTrimmed(p.row.tipo) && IsTrimmed(p.row.estado)
              && p.row.tipo == TrimmedOrEmpty(Field(b, "tipo")).value
              && p.row.descripcion == NonEmpty(TrimmedOrEmpty(Field(b, "descripcion")).value)
              && p.row.ubicacion == NonEmpty(TrimmedOrEmpty(Field(b, "ubicacion")).value)
              && p.row.reportadoPor == NonEmpty(TrimmedOrEmpty(Field(b, "reportado_por")).value)
              && p.row.telefonoReportante == NonEmpty(TrimmedOrEmpty(Field(b, "telefono_reportante")).value)
              && p.row.estado == TrimmedOrEmpty(Or(Field(b, "estado"), Str(DEFAULT_ESTADO))).value
              && (!Truthy(Field(b, "estado")) ==> p.row.estado == DEFAULT_ESTADO)
              && p.row.createdAt == now
  {
    var id := ToNumber(Field(b, "motorista_id"));
    var tipo := TrimmedOrEmpty(Field(b, "tipo"));
    var descripcion := TrimmedOrEmpty(Field(b, "descripcion"));
    var ubicacion := TrimmedOrEmpty(Field(b, "ubicacion"));
    var reportadoPor := TrimmedOrEmpty(Field(b, "reportado_por"));
    var telefono := TrimmedOrEmpty(Field(b, "telefono_reportante"));
    var estado := TrimmedOrEmpty(Or(Field(b, "estado"), Str(DEFAULT_ESTADO)));
    DefaultEstadoTrimmed();
    if tipo.None? || descripcion.None? || ubicacion.None? || reportadoPor.None? || telefono.None? || estado.None? then
      IncidentThrows
    else if !NumericTruthy(id) || tipo.value == "" then
      IncidentMissing
    else
      IncidentOk(IncidentRow(id.n, tipo.value, NonEmpty(descripcion.value), NonEmpty(ubicacion.value),
                             NonEmpty(reportadoPor.value), NonEmpty(telefono.value), estado.value, now))
  }

  lemma DefaultEstadoTrimmed()
    ensures Trim(DEFAULT_ESTADO) == DEFAULT_ESTADO
  {
    TrimOfTrimmed(DEFAULT_ESTADO);
  }

  datatype IncidentResponse =
    | IncidentSaved
    | IncidentMissingFields
    | IncidentFailed(error: string)
    /** The handler threw before its `try`: no row, no defined response. */
    | IncidentUnhandled

  // ---------------------------------------------------------------------
  // Emergency resolver results

  /** The scan logged when the page is served: `user-agent || null`, `ip || null`. */
  function ScanOf(id: int, userAgent: Option<string>, ip: Option<string>, now: int): (s: ScanRow)
    ensures s.driverId == id && s.createdAt == now
    ensures s.userAgent.None? <==> userAgent.None? || userAgent.value == ""
    ensures s.ip.None? <==> ip.None? || ip.value == ""
    ensures s.userAgent.Some? ==> s.userAgent == userAgent
    ensures s.ip.Some? ==> s.ip == ip
  {
    ScanRow(id, OrNull(userAgent), OrNull(ip), now)
  }

  /** The resolver's answer when one of its three queries fails or not. */
  function Resolve(ds: seq<DriverRow>, cs: seq<ContactRow>, vs: seq<VehicleRow>, param: string, readFault: bool): (resp: EmergencyResponse)
    ensures resp.ServerError? <==> NumericTruthy(RouteId(param)) && readFault
    ensures !resp.ServerError? ==> resp == EmergencyLookup(ds, cs, vs, param)
  {
    if NumericTruthy(RouteId(param)) && readFault then ServerError else EmergencyLookup(ds, cs, vs, param)
  }

  /** The code printed for a committed driver opens that driver's page: its
      URL ends in the driver's id, the id read back from the path is the
      same, and the page shows that driver with the DPI the payload carries. */
  lemma CodeOpensOwnEmergencyPage(ds: seq<DriverRow>, cs: seq<ContactRow>, vs: seq<VehicleRow>,
                                  next: int, base: string, k: int)
    requires DriversWellFormed(ds, next, base)
    requires 0 <= k < |ds|
    ensures ds[k].qrData.Some? && ds[k].qrData.value.url == base + EMERGENCY_PATH + IntToString(ds[k].id)
    ensures RouteId(IntToString(ds[k].id)) == Finite(ds[k].id)
    ensures var resp := EmergencyLookup(ds, cs, vs, IntToString(ds[k].id));
            && resp.Emergency?
            && resp.motorista == PublicDriverOf(ds[k])
            && resp.motorista.dpi == ToJsString(ds[k].qrData.value.dpi)
  {
    var row := ds[k];
    assert HasOwnCode(row, base);
    var s := IntToString(row.id);
    RouteIdOfRenderedId(row.id);
    FindDriverByIdUnique(ds, k);
    assert EmergencyLookup(ds, cs, vs, s)
        == Emergency(PublicDriverOf(row), ContactViewOf(PrimaryContact(cs, row.id)), VehicleViewOf(LatestVehicle(vs, row.id)));
  }

  /** The driver's own code view shows the payload stored at registration,
      and its URL is the one that payload carries. */
  lemma MyQrShowsStoredCode(ds: seq<DriverRow>, next: int, base: string, render: string -> Rendered, k: int)
    requires DriversWellFormed(ds, next, base)
    requires 0 <= k < |ds|
    requires render(EmergencyUrl(base, ds[k].id)).DataUrl?
    ensures var resp := MyQrOf(ds, ds[k].id, base, render, false);
            && resp.MyQr?
            && resp.qrPayload == ds[k].qrData
            && resp.qrPayload.Some? && resp.qrPayload.value.url == resp.url
  {
    FindDriverByIdUnique(ds, k);
  }

  /** The three tables and their counters together. */
  ghost predicate TablesWellFormed(ds: seq<DriverRow>, cs: seq<ContactRow>, vs: seq<VehicleRow>,
                                   nextDriver: int, nextContact: int, nextVehicle: int, base: string)
  {
    && DriversWellFormed(ds, nextDriver, base)
    && ContactsWellFormed(cs, ds, nextContact)
    && VehiclesWellFormed(vs, nextVehicle)
  }

  // ---------------------------------------------------------------------
  // The store

  datatype VehiclePutResponse = VehicleSaved | VehicleUpdateError

  class Store {
    const baseUrl: string
    var drivers: seq<DriverRow>
    var contacts: seq<ContactRow>
    var vehicles: seq<VehicleRow>
    var scans: seq<ScanRow>
    var incidents: seq<IncidentRow>
    var nextDriverId: int
    var nextContactId: int
    var nextVehicleId: int

    ghost predicate Valid()
      reads this`drivers, this`contacts, this`vehicles, this`nextDriverId, this`nextContactId, this`nextVehicleId
    {
      TablesWellFormed(drivers, contacts, vehicles, nextDriverId, nextContactId, nextVehicleId, baseUrl)
    }

    /** An empty registry serving codes under `PUBLIC_BASE_URL`. */
    constructor (publicBaseUrl: Option<string>)
      ensures Valid()
      ensures baseUrl == PublicBaseUrl(publicBaseUrl)
      ensures drivers == [] && contacts == [] && vehicles == [] && scans == [] && incidents == []
      ensures nextDriverId == 1 && nextContactId == 1 && nextVehicleId == 1
    {
      baseUrl := PublicBaseUrl(publicBaseUrl);
      drivers, contacts, vehicles, scans, incidents := [], [], [], [], [];
      nextDriverId, nextContactId, nextVehicleId := 1, 1, 1;
    }

    /** `ROLLBACK`: the rows come back, the counters do not. */
    method Rollback(ds: seq<DriverRow>, cs: seq<ContactRow>, vs: seq<VehicleRow>)
      modifies this`drivers, this`contacts, this`vehicles
      ensures drivers == ds && contacts == cs && vehicles == vs
    {
      drivers, contacts, vehicles := ds, cs, vs;
    }

    /** POST /api/public/motoristas. 400 when a required field is missing;
        otherwise inside one transaction: 409 when the email or the trimmed
        DPI is taken, else the driver, its contacts and its vehicle are
        inserted, the code is rendered and stored, and the transaction
        commits (201). A failing step rolls the rows back and answers 500
        with the error's message. */
    method Register(b: Body, hash: (string, int) -> string, render: string -> Rendered, fault: Fault, now: int)
      returns (resp: RegistrationResponse)
      requires Valid()
      modifies this
      ensures Valid()
      ensures scans == old(scans) && incidents == old(incidents)
      ensures old(nextDriverId) <= nextDriverId && old(nextContactId) <= nextContactId && old(nextVehicleId) <= nextVehicleId
      ensures !resp.Created? ==> drivers == old(drivers) && contacts == old(contacts) && vehicles == old(vehicles)
      ensures var r := ReadRequest(b);
              var dup := IsDuplicate(old(drivers), r);
              var id := old(nextDriverId);
              var url := EmergencyUrl(baseUrl, id);
              && (resp.MissingFields? <==> !HasRequiredFields(r))
              && (resp.Duplicate? <==> HasRequiredFields(r) && dup && !FaultHits(fault, r, dup))
              && (resp.Created? <==> HasRequiredFields(r) && !dup && !FaultHits(fault, r, dup) && render(url).DataUrl?)
              && (resp.Failed? ==> (fault.FailAt? && resp.error == ErrorText(fault.message))
                                   || (render(url).RenderError? && resp.error == ErrorText(render(url).message)))
              && (resp.Created? ==>
                    && drivers == old(drivers) + [RegisteredDriver(r, id, hash(ToJsString(r.password), BCRYPT_ROUNDS), baseUrl, now)]
                    && contacts == old(contacts) + WithIds(ContactsToInsert(r, id), old(nextContactId))
                    && vehicles == old(vehicles) + (if HasVehicle(r) then [VehicleInsert(r, id, old(nextVehicleId), now)] else [])
                    && resp == Created(DriverSummary(id, r.nombreCompleto, r.dpi, r.correoFinal),
                                       if HasVehicle(r) then Some(VehicleSummaryOf(r)) else None,
                                       render(url).image, url))
    {
      var r := ReadRequest(b);
      if !HasRequiredFields(r) {
        return MissingFields;
      }
      resp := Transaction(r, hash, render, fault, now);
    }

    /** The transaction of a registration whose required fields are present. */
    method Transaction(r: Request, hash: (string, int) -> string, render: string -> Rendered, fault: Fault, now: int)
      returns (resp: RegistrationResponse)
      requires Valid()
      requires HasRequiredFields(r) && IsTrimmed(r.correoFinal) && IsLowerCase(r.correoFinal)
      modifies this
      ensures Valid()
      ensures scans == old(scans) && incidents == old(incidents)
      ensures old(nextDriverId) <= nextDriverId && old(nextContactId) <= nextContactId && old(nextVehicleId) <= nextVehicleId
      ensures !resp.Created? ==> drivers == old(drivers) && contacts == old(contacts) && vehicles == old(vehicles)
      ensures var dup := IsDuplicate(old(drivers), r);
              var id := old(nextDriverId);
              var url := EmergencyUrl(baseUrl, id);
              && !resp.MissingFields?
              && (resp.Duplicate? <==> dup && !FaultHits(fault, r, dup))
              && (resp.Created? <==> !dup && !FaultHits(fault, r, dup) && render(url).DataUrl?)
              && (resp.Failed? ==> (fault.FailAt? && resp.error == ErrorText(fault.message))
                                   || (render(url).RenderError? && resp.error == ErrorText(render(url).message)))
              && (resp.Created? ==>
                    && drivers == old(drivers) + [RegisteredDriver(r, id, hash(ToJsString(r.password), BCRYPT_ROUNDS), baseUrl, now)]
                    && contacts == old(contacts) + WithIds(ContactsToInsert(r, id), old(nextContactId))
                    && vehicles == old(vehicles) + (if HasVehicle(r) then [VehicleInsert(r, id, old(nextVehicleId), now)] else [])
                    && resp == Created(DriverSummary(id, r.nombreCompleto, r.dpi, r.correoFinal),
                                       if HasVehicle(r) then Some(VehicleSummaryOf(r)) else None,
                                       render(url).image, url))
    {
      if fault.FailAt? && fault.step in {GetConnection, BeginTransaction, DuplicateQuery} {
        return Failed(ErrorText(fault.message));
      }
      if IsDuplicate(drivers, r) {
        if fault.FailAt? && fault.step == ConflictRollback {
          return Failed(ErrorText(fault.message));
        }
        return Duplicate;
      }
      resp := Apply(r, hash, render, fault, now);
    }

    /** The writes of a registration that passed the duplicate check, then
        COMMIT, or ROLLBACK when one of them fails. */
    method Apply(r: Request, hash: (string, int) -> string, render: string -> Rendered, fault: Fault, now: int)
      returns (resp: RegistrationResponse)
      requires Valid()
      requires HasRequiredFields(r) && IsTrimmed(r.correoFinal) && IsLowerCase(r.correoFinal)
      requires !IsDuplicate(drivers, r)
      requires !(fault.FailAt? && fault.step in {GetConnection, BeginTransaction, DuplicateQuery})
      modifies this
      ensures Valid()
      ensures scans == old(scans) && incidents == old(incidents)
      ensures old(nextDriverId) <= nextDriverId && old(nextContactId) <= nextContactId && old(nextVehicleId) <= nextVehicleId
      ensures !resp.Created? ==> drivers == old(drivers) && contacts == old(contacts) && vehicles == old(vehicles)
      ensures var id := old(nextDriverId);
              var url := EmergencyUrl(baseUrl, id);
              && (resp.Created? || resp.Failed?)
              && (resp.Created? <==> !FaultHits(fault, r, false) && render(url).DataUrl?)
              && (resp.Failed? ==> (fault.FailAt? && resp.error == ErrorText(fault.message))
                                   || (render(url).RenderError? && resp.error == ErrorText(render(url).message)))
              && (resp.Created? ==>
                    && drivers == old(drivers) + [RegisteredDriver(r, id, hash(ToJsString(r.password), BCRYPT_ROUNDS), baseUrl, now)]
                    && contacts == old(contacts) + WithIds(ContactsToInsert(r, id), old(nextContactId))
                    && vehicles == old(vehicles) + (if HasVehicle(r) then [VehicleInsert(r, id, old(nextVehicleId), now)] else [])
                    && resp == Created(DriverSummary(id, r.nombreCompleto, r.dpi, r.correoFinal),
                                       if HasVehicle(r) then Some(VehicleSummaryOf(r)) else None,
                                       render(url).image, url))
    {
      var d0, c0, v0 := drivers, contacts, vehicles;
      var nd, nc, nv := nextDriverId, nextContactId, nextVehicleId;
      assert forall i :: 0 <= i < |d0| ==> d0[i].email != r.correoFinal;
      var failure := WriteRegistration(r, hash, render, fault, now);
      if failure.Some? {
        Rollback(d0, c0, v0);
        WellFormedLargerCounters(d0, c0, v0, nd, nc, nv, nextDriverId, nextContactId, nextVehicleId, baseUrl);
        return Failed(failure.value);
      }
      RegistrationKeepsWellFormed(d0, c0, v0, nd, nc, nv, baseUrl, r, hash(ToJsString(r.password), BCRYPT_ROUNDS), now);
      var url := EmergencyUrl(baseUrl, nd);
      resp := Created(DriverSummary(nd, r.nombreCompleto, r.dpi, r.correoFinal),
                      if HasVehicle(r) then Some(VehicleSummaryOf(r)) else None,
                      render(url).image, url);
    }

    /** The writes of a registration that passed the duplicate check, up to
        the commit: `None` when all succeed, otherwise the message of the
        first failure, with the rows written so far still in place for the
        caller to roll back. */
    method WriteRegistration(r: Request, hash: (string, int) -> string, render: string -> Rendered, fault: Fault, now: int)
      returns (failure: Option<string>)
      requires forall i :: 0 <= i < |drivers| ==> drivers[i].id < nextDriverId
      requires !(fault.FailAt? && fault.step in {GetConnection, BeginTransaction, DuplicateQuery})
      modifies this`drivers, this`contacts, this`vehicles, this`nextDriverId, this`nextContactId, this`nextVehicleId
      ensures old(nextDriverId) <= nextDriverId && old(nextContactId) <= nextContactId && old(nextVehicleId) <= nextVehicleId
      ensures var url := EmergencyUrl(baseUrl, old(nextDriverId));
              && (failure.None? <==> !FaultHits(fault, r, false) && render(url).DataUrl?)
              && (failure.Some? ==> (fault.FailAt? && failure.value == ErrorText(fault.message))
                                    || (render(url).RenderError? && failure.value == ErrorText(render(url).message)))
      ensures failure.None? ==>
                var id := old(nextDriverId);
                && drivers == old(drivers) + [RegisteredDriver(r, id, hash(ToJsString(r.password), BCRYPT_ROUNDS), baseUrl, now)]
                && contacts == old(contacts) + WithIds(ContactsToInsert(r, id), old(nextContactId))
                && vehicles == old(vehicles) + (if HasVehicle(r) then [VehicleInsert(r, id, old(nextVehicleId), now)] else [])
                && nextDriverId == id + 1
                && nextContactId == old(nextContactId) + |ContactsToInsert(r, id)|
                && nextVehicleId == if HasVehicle(r) then old(nextVehicleId) + 1 else old(nextVehicleId)
    {
      if fault.FailAt? && fault.step == HashPassword {
        return Some(ErrorText(fault.message));
      }
      var passwordHash := hash(ToJsString(r.password), BCRYPT_ROUNDS);
      var d0 := drivers;
      var motoristaId := nextDriverId;
      failure := InsertRows(r, passwordHash, fault, now);
      if failure.Some? {
        return;
      }
      failure := StoreCode(r, d0, DriverInsert(r, motoristaId, passwordHash, now), render, fault);
    }

    /** The three INSERTs: the driver with the next id, one contact per used
        slot, and the vehicle when the request has vehicle data. */
    method InsertRows(r: Request, passwordHash: string, fault: Fault, now: int) returns (failure: Option<string>)
      modifies this`drivers, this`contacts, this`vehicles, this`nextDriverId, this`nextContactId, this`nextVehicleId
      ensures old(nextDriverId) <= nextDriverId && old(nextContactId) <= nextContactId && old(nextVehicleId) <= nextVehicleId
      ensures failure.None? <==> !(fault.FailAt? && fault.step in {InsertDriver, InsertContacts, InsertVehicle} && StepRuns(fault.step, r, false))
      ensures failure.Some? ==> fault.FailAt? && failure.value == ErrorText(fault.message)
      ensures failure.None? ==>
                var id := old(nextDriverId);
                && drivers == old(drivers) + [DriverInsert(r, id, passwordHash, now)]
                && contacts == old(contacts) + WithIds(ContactsToInsert(r, id), old(nextContactId))
                && vehicles == old(vehicles) + (if HasVehicle(r) then [VehicleInsert(r, id, old(nextVehicleId), now)] else [])
                && nextDriverId == id + 1
                && nextContactId == old(nextContactId) + |ContactsToInsert(r, id)|
                && nextVehicleId == if HasVehicle(r) then old(nextVehicleId) + 1 else old(nextVehicleId)
    {
      if fault.FailAt? && fault.step == InsertDriver {
        return Some(ErrorText(fault.message));
      }
      var motoristaId := nextDriverId;
      drivers := drivers + [DriverInsert(r, motoristaId, passwordHash, now)];
      nextDriverId := nextDriverId + 1;

      var contactos := BuildContacts(r, motoristaId);
      if |contactos| > 0 {
        if fault.FailAt? && fault.step == InsertContacts {
          return Some(ErrorText(fault.message));
        }
        contacts := contacts + WithIds(contactos, nextContactId);
        nextContactId := nextContactId + |contactos|;
      }

      if HasVehicle(r) {
        if fault.FailAt? && fault.step == InsertVehicle {
          return Some(ErrorText(fault.message));
        }
        vehicles := vehicles + [VehicleInsert(r, motoristaId, nextVehicleId, now)];
        nextVehicleId := nextVehicleId + 1;
      }
      return None;
    }

    /** Render the code for the new driver's page, store its payload with
        `UPDATE ... SET qr_data`, and commit. */
    method StoreCode(r: Request, d0: seq<DriverRow>, inserted: DriverRow, render: string -> Rendered, fault: Fault)
      returns (failure: Option<string>)
      requires drivers == d0 + [inserted]
      requires forall i :: 0 <= i < |d0| ==> d0[i].id < inserted.id
      modifies this`drivers
      ensures var url := EmergencyUrl(baseUrl, inserted.id);
              && (failure.None? <==> render(url).DataUrl? && !(fault.FailAt? && fault.step in {UpdateQrData, Commit}))
              && (failure.Some? ==> (fault.FailAt? && failure.value == ErrorText(fault.message))
                                    || (render(url).RenderError? && failure.value == ErrorText(render(url).message)))
      ensures failure.None? ==> drivers == d0 + [inserted.(qrData := Some(QrPayloadFor(r, inserted.id, baseUrl)))]
    {
      var publicUrl := EmergencyUrl(baseUrl, inserted.id);
      var qrImage := render(publicUrl);
      if qrImage.RenderError? {
        return Some(ErrorText(qrImage.message));
      }
      if fault.FailAt? && fault.step == UpdateQrData {
        return Some(ErrorText(fault.message));
      }
      var payload := QrPayloadFor(r, inserted.id, baseUrl);
      drivers := SetQrData(drivers, inserted.id, payload);
      SetQrDataOfNewRow(d0, inserted, payload);
      if fault.FailAt? && fault.step == Commit {
        return Some(ErrorText(fault.message));
      }
      return None;
    }

    /** GET /api/public/emergency/:id. The page as `Resolve` computes it;
        when it is served, a scan row is appended unless that insert fails,
        which the page does not notice. */
    method ResolveEmergency(param: string, readFault: bool, scanFault: bool,
                            userAgent: Option<string>, ip: Option<string>, now: int)
      returns (resp: EmergencyResponse)
      requires Valid()
      modifies this`scans
      ensures Valid()
      ensures resp == Resolve(drivers, contacts, vehicles, param, readFault)
      ensures scans == if resp.Emergency? && !scanFault
                       then old(scans) + [ScanOf(RouteId(param).n, userAgent, ip, now)]
                       else old(scans)
    {
      resp := Resolve(drivers, contacts, vehicles, param, readFault);
      if resp.Emergency? && !scanFault {
        var scan := ScanOf(RouteId(param).n, userAgent, ip, now);
        scans := scans + [scan];
      }
      assert TablesWellFormed(drivers, contacts, vehicles, nextDriverId, nextContactId, nextVehicleId, baseUrl)
        == old(TablesWellFormed(drivers, contacts, vehicles, nextDriverId, nextContactId, nextVehicleId, baseUrl));
    }

    /** PUT /api/driver/vehicle for the driver `userId` named in the token:
        updates the driver's latest vehicle row by id, or inserts one. */
    method PutVehicle(userId: int, b: Body, readFault: bool, writeFault: bool, now: int)
      returns (resp: VehiclePutResponse)
      requires Valid()
      modifies this`vehicles, this`nextVehicleId
      ensures Valid()
      ensures resp.VehicleSaved? <==> !readFault && !writeFault
      ensures resp.VehicleSaved? ==>
                && vehicles == Upserted(old(vehicles), userId, VehicleFieldsOf(b), old(nextVehicleId), now)
                && nextVehicleId == UpsertNext(old(vehicles), userId, old(nextVehicleId))
      ensures !resp.VehicleSaved? ==> vehicles == old(vehicles) && nextVehicleId == old(nextVehicleId)
    {
      var f := VehicleFieldsOf(b);
      if readFault {
        return VehicleUpdateError;
      }
      var latest := LatestVehicleIndex(vehicles, userId);
      if writeFault {
        return VehicleUpdateError;
      }
      UpsertKeepsWellFormed(vehicles, userId, f, nextVehicleId, now);
      match latest {
        case Some(k) =>
          UpdateByIdIsUpsert(vehicles, userId, f, nextVehicleId, now, k);
          vehicles := UpdateVehicleById(vehicles, vehicles[k].id, f.placa, f.marca, f.modelo, f.anio);
        case None =>
          vehicles := vehicles + [VehicleRow(nextVehicleId, userId, f.placa, f.marca, f.modelo, f.anio, now)];
          nextVehicleId := nextVehicleId + 1;
      }
      return VehicleSaved;
    }

    /** POST /api/public/incidentes: a body that makes `trim` throw gets no
        answer and writes nothing, a missing driver id or type is 400,
        otherwise the row is inserted unless the insert fails (500 with its
        message or "Error al guardar el incidente"). */
    method ReportIncident(b: Body, insertFault: Option<string>, now: int) returns (resp: IncidentResponse)
      requires Valid()
      modifies this`incidents
      ensures Valid()
      ensures resp.IncidentUnhandled? <==> ReadIncident(b, now).IncidentThrows?
      ensures resp.IncidentMissingFields? <==> ReadIncident(b, now).IncidentMissing?
      ensures resp.IncidentSaved? <==> ReadIncident(b, now).IncidentOk? && insertFault.None?
      ensures resp.IncidentFailed? ==>
                insertFault.Some? && resp.error == if insertFault.value != "" then insertFault.value else "Error al guardar el incidente"
      ensures incidents == if resp.IncidentSaved? then old(incidents) + [ReadIncident(b, now).row] else old(incidents)
    {
      var input := ReadIncident(b, now);
      match input {
        case IncidentThrows =>
          resp := IncidentUnhandled;
        case IncidentMissing =>
          resp := IncidentMissingFields;
        case IncidentOk(row) =>
          if insertFault.Some? {
            resp := IncidentFailed(if insertFault.value != "" then insertFault.value else "Error al guardar el incidente");
          } else {
            incidents := incidents + [row];
            resp := IncidentSaved;
          }
      }
      assert TablesWellFormed(drivers, contacts, vehicles, nextDriverId, nextContactId, nextVehicleId, baseUrl)
        == old(TablesWellFormed(drivers, contacts, vehicles, nextDriverId, nextContactId, nextVehicleId, baseUrl));
    }
  }
}
