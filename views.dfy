/** The read-only handlers: the public emergency page's lookup and the
    driver's own profile, code and vehicle, as functions of the tables. A
    failing query is the `readFault` parameter. */
module Views {
  import opened JsValues
  import opened Tables

  // ---------------------------------------------------------------------
  // GET /api/public/emergency/:id

  /** The driver columns the public page shows: no password hash, no code payload. */
  datatype PublicDriver = PublicDriver(
    id: int, nombreCompleto: string, dpi: string, numeroCasa: Option<string>,
    nombrePadre: Option<string>, nombreMadre: Option<string>, email: string, createdAt: int)

  datatype ContactView = ContactView(nombre: Option<string>, telefono: Option<string>, prioridad: int)

  datatype VehicleView = VehicleView(placa: Option<string>, marca: Option<string>, modelo: Option<string>, anio: Option<Numeric>)

  datatype EmergencyResponse =
    | BadId
    | NotFound
    | ServerError
    | Emergency(motorista: PublicDriver, contact: Option<ContactView>, vehicle: Option<VehicleView>)

  function PublicDriverOf(d: DriverRow): PublicDriver
  {
    PublicDriver(d.id, d.nombreCompleto, d.dpi, d.numeroCasa, d.nombrePadre, d.nombreMadre, d.email, d.createdAt)
  }

  function ContactViewOf(c: Option<ContactRow>): Option<ContactView>
  {
    match c
    case None => None
    case Some(c) => Some(ContactView(c.nombre, c.telefono, c.prioridad))
  }

  function VehicleViewOf(v: Option<VehicleRow>): Option<VehicleView>
  {
    match v
    case None => None
    case Some(v) => Some(VehicleView(v.placa, v.marca, v.modelo, v.anio))
  }

  /** `Number(req.params.id || 0)` */
  function RouteId(param: string): (n: Numeric)
    ensures param == "" ==> n == Finite(0)
    ensures param != "" ==> n == StringToNumber(param)
  {
    ToNumber(Or(Str(param), Num(0)))
  }

  /** A path segment written from a nonzero id reads back as that id. */
  lemma RouteIdOfRenderedId(n: int)
    requires n != 0
    ensures RouteId(IntToString(n)) == Finite(n)
  {
    NumberOfString(n);
  }

  /** The emergency page for the driver named in the path: 400 when the id
      is 0 or not a number, 404 when no driver has it, otherwise the
      driver's public columns, the contact that ranks first and the vehicle
      row with the largest id. */
  function EmergencyLookup(ds: seq<DriverRow>, cs: seq<ContactRow>, vs: seq<VehicleRow>, param: string): (resp: EmergencyResponse)
    ensures resp.BadId? <==> !NumericTruthy(RouteId(param))
    ensures resp.NotFound? <==> NumericTruthy(RouteId(param)) && forall d :: d in ds ==> d.id != RouteId(param).n
    ensures !resp.ServerError?
    ensures resp.Emergency? ==> DescribesDriver(resp, ds, cs, vs, RouteId(param).n)
  {
    var id := RouteId(param);
    if !NumericTruthy(id) then BadId
    else
      match FindDriverById(ds, id.n)
      case None => NotFound
      case Some(m) =>
        EmergencyOfDriver(m, ds, cs, vs, id.n);
        Emergency(PublicDriverOf(m), ContactViewOf(PrimaryContact(cs, id.n)), VehicleViewOf(LatestVehicle(vs, id.n)))
  }

  /** An emergency page for driver `id`: the public columns of a driver row
      with that id; no contact exactly when the driver has none, otherwise
      the view of one of the driver's contacts that ranks before all the
      others; no vehicle exactly when the driver has none, otherwise the
      view of one of the driver's vehicles with the largest id. */
  predicate DescribesDriver(resp: EmergencyResponse, ds: seq<DriverRow>, cs: seq<ContactRow>, vs: seq<VehicleRow>, id: int)
    requires resp.Emergency?
  {
    && (exists d :: d in ds && d.id == id && resp.motorista == PublicDriverOf(d))
    && (resp.contact.None? <==> forall c :: c in cs ==> c.driverId != id)
    && (resp.contact.Some? ==> exists c :: c in cs && c.driverId == id && resp.contact == ContactViewOf(Some(c))
                                          && forall c2 :: c2 in cs && c2.driverId == id ==> RanksBefore(c, c2))
    && (resp.vehicle.None? <==> forall v :: v in vs ==> v.driverId != id)
    && (resp.vehicle.Some? ==> exists v :: v in vs && v.driverId == id && resp.vehicle == VehicleViewOf(Some(v))
                                          && forall v2 :: v2 in vs && v2.driverId == id ==> v2.id <= v.id)
  }

  lemma EmergencyOfDriver(m: DriverRow, ds: seq<DriverRow>, cs: seq<ContactRow>, vs: seq<VehicleRow>, id: int)
    requires m in ds && m.id == id
    ensures DescribesDriver(Emergency(PublicDriverOf(m), ContactViewOf(PrimaryContact(cs, id)), VehicleViewOf(LatestVehicle(vs, id))), ds, cs, vs, id)
  {
    var c := PrimaryContact(cs, id);
    var v := LatestVehicle(vs, id);
    if c.Some? {
      assert ContactViewOf(c) == ContactViewOf(Some(c.value));
    }
    if v.Some? {
      assert VehicleViewOf(v) == VehicleViewOf(Some(v.value));
    }
  }

  lemma EmergencyLookupIgnoresSecrets(ds: seq<DriverRow>, ds': seq<DriverRow>, cs: seq<ContactRow>, vs: seq<VehicleRow>, param: string)
    requires |ds| == |ds'|
    requires forall i :: 0 <= i < |ds| ==> ds'[i] == ds[i].(passwordHash := ds'[i].passwordHash, qrData := ds'[i].qrData)
    ensures EmergencyLookup(ds, cs, vs, param) == EmergencyLookup(ds', cs, vs, param)
  {
    var id := RouteId(param);
    if NumericTruthy(id) {
      FindIgnoresSecrets(ds, ds', id.n);
    }
  }

  lemma {:induction false} FindIgnoresSecrets(ds: seq<DriverRow>, ds': seq<DriverRow>, id: int)
    requires |ds| == |ds'|
    requires forall i :: 0 <= i < |ds| ==> ds'[i] == ds[i].(passwordHash := ds'[i].passwordHash, qrData := ds'[i].qrData)
    ensures FindDriverById(ds, id).None? <==> FindDriverById(ds', id).None?
    ensures FindDriverById(ds, id).Some? ==> PublicDriverOf(FindDriverById(ds, id).value) == PublicDriverOf(FindDriverById(ds', id).value)
  {
    if ds != [] {
      assert ds'[0].id == ds[0].id;
      FindIgnoresSecrets(ds[1..], ds'[1..], id);
    }
  }

  // ---------------------------------------------------------------------
  // GET /api/driver/me

  /** The profile columns: everything but the password hash. */
  datatype Profile = Profile(
    id: int, nombreCompleto: string, dpi: string, numeroCasa: Option<string>,
    nombrePadre: Option<string>, nombreMadre: Option<string>, email: string,
    qrData: Option<QrPayload>, createdAt: int)

  datatype MeResponse = MeFound(me: Profile) | MeNotFound | MeError

  function ProfileOf(d: DriverRow): Profile
  {
    Profile(d.id, d.nombreCompleto, d.dpi, d.numeroCasa, d.nombrePadre, d.nombreMadre, d.email, d.qrData, d.createdAt)
  }

  /** The caller's own profile, looked up by the id in the token. */
  function Me(ds: seq<DriverRow>, userId: int, readFault: bool): (resp: MeResponse)
    ensures resp.MeError? <==> readFault
    ensures resp.MeNotFound? <==> !readFault && forall d :: d in ds ==> d.id != userId
    ensures resp.MeFound? ==> exists d :: d in ds && d.id == userId && resp.me == ProfileOf(d)
  {
    if readFault then MeError
    else
      match FindDriverById(ds, userId)
      case None => MeNotFound
      case Some(d) => MeFound(ProfileOf(d))
  }

  // ---------------------------------------------------------------------
  // GET /api/driver/my-qr

  datatype MyQrResponse = MyQr(qrImage: string, qrPayload: Option<QrPayload>, url: string) | QrNotFound | QrError

  /** The caller's code: the image is rendered afresh from the caller's
      emergency URL, the payload is whatever `qr_data` holds. */
  function MyQrOf(ds: seq<DriverRow>, userId: int, base: string, render: string -> Rendered, readFault: bool): (resp: MyQrResponse)
    ensures resp.QrNotFound? <==> !readFault && forall d :: d in ds ==> d.id != userId
    ensures resp.QrError? <==> readFault || ((exists d :: d in ds && d.id == userId) && render(EmergencyUrl(base, userId)).RenderError?)
    ensures resp.MyQr? ==>
              && resp.url == EmergencyUrl(base, userId)
              && resp.qrImage == render(resp.url).image
              && exists d :: d in ds && d.id == userId && resp.qrPayload == d.qrData
  {
    if readFault then QrError
    else
      match FindDriverById(ds, userId)
      case None => QrNotFound
      case Some(m) =>
        var url := EmergencyUrl(base, m.id);
        match render(url)
        case RenderError(_) => QrError
        case DataUrl(image) => MyQr(image, m.qrData, url)
  }

  // ---------------------------------------------------------------------
  // GET /api/driver/vehicle

  datatype OwnVehicle = OwnVehicle(id: int, placa: Option<string>, marca: Option<string>, modelo: Option<string>, anio: Option<Numeric>)

  datatype OwnVehicleResponse = VehicleFound(vehicle: Option<OwnVehicle>) | VehicleGetError

  function OwnVehicleOf(v: VehicleRow): OwnVehicle
  {
    OwnVehicle(v.id, v.placa, v.marca, v.modelo, v.anio)
  }

  /** The caller's vehicle: the row of theirs with the largest id, or none. */
  function GetOwnVehicle(vs: seq<VehicleRow>, userId: int, readFault: bool): (resp: OwnVehicleResponse)
    ensures resp.VehicleGetError? <==> readFault
    ensures resp.VehicleFound? ==> (resp.vehicle.None? <==> forall v :: v in vs ==> v.driverId != userId)
    ensures resp.VehicleFound? && resp.vehicle.Some? ==>
              exists v :: v in vs && v.driverId == userId && resp.vehicle.value == OwnVehicleOf(v)
                          && forall v2 :: v2 in vs && v2.driverId == userId ==> v2.id <= v.id
  {
    if readFault then VehicleGetError
    else
      match LatestVehicle(vs, userId)
      case None => VehicleFound(None)
      case Some(v) => VehicleFound(Some(OwnVehicleOf(v)))
  }
}
