/** The app's stored records: events, comments and user profiles, with the
    defaults their Kotlin constructors supply. Instants are epoch milliseconds;
    a default that reads the clock takes the reading as `now`. */
module Model {
  import opened Common

  /** Lifecycle state kept on an event; it is stored, never derived from the date. */
  datatype EstadoEvento = Proximo | EnCurso | Finalizado | Cancelado

  const AllEstados: seq<EstadoEvento> := [Proximo, EnCurso, Finalizado, Cancelado]

  /** The enum has exactly four values, each listed once. */
  lemma EstadosAreFour()
    ensures |AllEstados| == 4
    ensures forall e: EstadoEvento :: e in AllEstados
    ensures forall i, j :: 0 <= i < j < |AllEstados| ==> AllEstados[i] != AllEstados[j]
  {
    forall e: EstadoEvento ensures e in AllEstados {
      match e
      case Proximo => assert AllEstados[0] == e;
      case EnCurso => assert AllEstados[1] == e;
      case Finalizado => assert AllEstados[2] == e;
      case Cancelado => assert AllEstados[3] == e;
    }
  }

  datatype Event = Event(
    id: string,                      // primary key in both stores
    titulo: string,
    descripcion: string,
    fecha: int,                      // start instant
    hora: string,                    // "HH:mm"
    ubicacion: string,
    latitud: Option<real>,
    longitud: Option<real>,
    organizadorId: string,
    organizadorNombre: string,
    imagenUrl: Option<string>,
    licenciaCC: string,              // a CCLicense code
    categoria: string,
    capacidadMaxima: Option<int>,    // None: no limit
    asistentes: seq<string>,         // attendee uids
    calificacionPromedio: real,      // mean rating of the event's comments
    totalCalificaciones: int,        // number of those comments
    estado: EstadoEvento,
    fechaCreacion: int
  )

  /** `Event()` with every argument left to its default, built at instant `now`. */
  function DefaultEvent(now: int): (e: Event)
    ensures e.id == "" && e.licenciaCC == "CC BY" && e.categoria == "General"
    ensures e.asistentes == [] && e.calificacionPromedio == 0.0 && e.totalCalificaciones == 0
    ensures e.estado == Proximo && e.capacidadMaxima == None
    ensures e.fecha == now && e.fechaCreacion == now
  {
    Event("", "", "", now, "", "", None, None, "", "", None, "CC BY", "General",
          None, [], 0.0, 0, Proximo, now)
  }

  datatype Comment = Comment(
    id: string,                      // primary key in both stores
    eventoId: string,                // the event commented on (not enforced by either store)
    userId: string,
    userName: string,
    userPhotoUrl: Option<string>,
    texto: string,
    calificacion: int,               // documented as 1 to 5 stars
    fecha: int,
    editado: bool
  )

  /** The documented star range of a rating. */
  predicate IsStarRating(n: int) {
    1 <= n <= 5
  }

  /** `Comment()` with every argument left to its default, built at instant `now`. */
  function DefaultComment(now: int): (c: Comment)
    ensures c.id == "" && c.userPhotoUrl == None && !c.editado && c.fecha == now
    ensures c.calificacion == 0
  {
    Comment("", "", "", "", None, "", 0, now, false)
  }

  /** The default rating lies outside the documented 1-5 range. */
  lemma DefaultRatingOutOfRange(now: int)
    ensures !IsStarRating(DefaultComment(now).calificacion)
  {
  }

  datatype User = User(
    id: string,                      // primary key: the identity provider's uid
    nombre: string,
    email: string,
    photoUrl: Option<string>,
    eventosCreados: seq<string>,     // ids of events this user organised
    eventosAsistidos: seq<string>,   // ids of events this user confirmed
    fechaRegistro: int
  )

  /** `User(id, nombre, email, photoUrl)` built at instant `now`: a new profile. */
  function NewUser(id: string, nombre: string, email: string, photoUrl: Option<string>, now: int): (u: User)
    ensures u.id == id && u.nombre == nombre && u.email == email && u.photoUrl == photoUrl
    ensures u.eventosCreados == [] && u.eventosAsistidos == []
    ensures u.fechaRegistro == now
  {
    User(id, nombre, email, photoUrl, [], [], now)
  }
}
