/** EventViewModel: the screen state the event screens observe, the role predicates
    they ask, and how each intent moves the state. The signed-in uid and name, the
    clock, notification permission and the answer of each snapshot listener are
    inputs; the data comes from the repository's stores. */
module EventVM {
  import opened Common
  import opened Seqs
  import opened Model
  import CommentTable
  import opened EventRepo
  import opened Notifications

  datatype EventUiState = EventUiState(
    isLoading: bool,
    eventos: seq<Event>,
    proximosEventos: seq<Event>,
    eventosPasados: seq<Event>,
    misEventos: seq<Event>,
    eventoActual: Option<Event>,
    comentarios: seq<Comment>,
    errorMessage: Option<string>,
    successMessage: Option<string>)

  const InitialEventUi: EventUiState := EventUiState(false, [], [], [], [], None, [], None, None)

  const AllEventsFailed: string := "Error al cargar eventos: "
  const UpcomingFailed: string := "Error al cargar próximos eventos: "
  const PastFailed: string := "Error al cargar eventos pasados: "
  const MineFailed: string := "Error al cargar mis eventos: "
  const CommentsFailed: string := "Error al cargar comentarios: "
  const CreateFailed: string := "Error al crear evento: "
  const UpdateFailed: string := "Error al actualizar evento: "
  const DeleteFailed: string := "Error al eliminar evento: "
  const ConfirmFailed: string := "Error al confirmar asistencia: "
  const CancelFailed: string := "Error al cancelar asistencia: "
  const CommentFailed: string := "Error al agregar comentario: "
  const Created: string := "Evento creado exitosamente"
  const Updated: string := "Evento actualizado exitosamente"
  const Deleted: string := "Evento eliminado exitosamente"
  const Confirmed: string := "Asistencia confirmada"
  const Cancelled: string := "Asistencia cancelada"
  const Commented: string := "Comentario agregado"
  /** The attendee name used when the signed-in account has no display name. */
  const Someone: string := "Alguien"

  // ---------------------------------------------------------------------------
  // Role predicates

  /** isOrganizador: the event's organizer is the signed-in user; never when signed out. */
  predicate IsOrganizador(e: Event, uid: Option<string>) {
    uid.Some? && e.organizadorId == uid.value
  }

  /** hasConfirmedAttendance: the signed-in user is on the attendee list; never when signed out. */
  predicate HasConfirmedAttendance(e: Event, uid: Option<string>) {
    uid.Some? && uid.value in e.asistentes
  }

  /** hasEventPassed: the event's date is strictly before now. */
  predicate HasEventPassed(e: Event, now: int) {
    e.fecha < now
  }

  /** The "mine" list holds exactly the events the signed-in user organises. Signed
      out, it holds the events whose organizer is the empty string, although
      isOrganizador holds for none of them. */
  lemma MisEventosAreOwn(snapshot: seq<Event>, uid: Option<string>)
    ensures uid.Some? ==> forall e :: e in MisEventos(snapshot, uid) <==> e in snapshot && IsOrganizador(e, uid)
    ensures uid.None? ==> forall e :: e in MisEventos(snapshot, uid) <==> e in snapshot && e.organizadorId == ""
    ensures uid.None? ==> forall e :: !IsOrganizador(e, uid)
  {
  }

  /** At one instant the past list is exactly the events that have passed, and the
      upcoming list exactly those that have not. */
  lemma PastListMatchesHasEventPassed(snapshot: seq<Event>, now: int)
    ensures forall e :: e in EventosPasados(snapshot, now) <==> e in snapshot && HasEventPassed(e, now)
    ensures forall e :: e in ProximosEventos(snapshot, now) <==> e in snapshot && !HasEventPassed(e, now)
  {
  }

  // ---------------------------------------------------------------------------
  // State transitions

  /** A write intent's last step: loading ends, and either the success message or
      the prefixed error is shown; every other field is kept. */
  function SettleWrite<T>(s: EventUiState, r: Result<T>, success: string, failurePrefix: string): (t: EventUiState)
    ensures !t.isLoading
    ensures r.Success? ==> t.successMessage == Some(success) && t.errorMessage == s.errorMessage
    ensures r.Failure? ==> t.errorMessage == Some(failurePrefix + r.message) && t.successMessage == s.successMessage
    ensures t.(isLoading := s.isLoading, errorMessage := s.errorMessage, successMessage := s.successMessage) == s
  {
    match r
    case Success(_) => s.(isLoading := false, successMessage := Some(success))
    case Failure(m) => s.(isLoading := false, errorMessage := Some(failurePrefix + m))
  }

  /** A create, update or delete intent leaves nothing loading, and its callback runs
      exactly when the repository succeeded, which is also exactly when the success
      message was set rather than an error. */
  lemma WriteIntentOutcome<T>(s: EventUiState, r: Result<T>, success: string, failurePrefix: string)
    requires s.errorMessage == None && s.successMessage == None
    ensures var t := SettleWrite(s.(isLoading := true), r, success, failurePrefix);
      && !t.isLoading
      && (r.Success? <==> t.successMessage == Some(success))
      && (r.Success? <==> t.errorMessage == None)
  {
  }

  function Cleared(s: EventUiState): (t: EventUiState)
    ensures t.errorMessage == None && t.successMessage == None
    ensures t.(errorMessage := s.errorMessage, successMessage := s.successMessage) == s
  {
    s.(errorMessage := None, successMessage := None)
  }

  /** The comments list an event screen shows: the event's comments, newest first. */
  ghost predicate ShowsComments(cs: seq<Comment>, comments: map<string, Comment>, eid: string) {
    SortedBy(cs, CommentTable.Fecha, false) && forall c :: c in cs <==> c in comments.Values && c.eventoId == eid
  }

  /** loadEventById and its comments listener: a missing event only ends loading and
      shows the not-found error, keeping the event shown before; a found one is shown,
      followed by its comments or by the listener's error. */
  ghost predicate LoadedEvent(before: EventUiState, after: EventUiState, eid: string,
                              events: map<string, Event>, comments: map<string, Comment>, commentsError: Option<string>) {
    if eid !in events then after == before.(isLoading := false, errorMessage := Some(EventNotFound))
    else
      var shown := before.(isLoading := false, eventoActual := Some(events[eid]));
      match commentsError
      case Some(m) => after == shown.(errorMessage := Some(CommentsFailed + m))
      case None => after == shown.(comentarios := after.comentarios) && ShowsComments(after.comentarios, comments, eid)
  }

  /** After a successful confirmation the reloaded event lists the user. */
  lemma ConfirmShowsAttendance(s: Stores, u: string, eid: string, before: EventUiState, after: EventUiState, commentsError: Option<string>)
    requires Keyed(s)
    requires ConfirmSpec(s, Some(u), eid).result.Success?
    requires var o := ConfirmSpec(s, Some(u), eid).after;
      LoadedEvent(before, after, eid, o.events, o.comments, commentsError)
    ensures after.eventoActual.Some? && after.eventoActual.value.id == eid
    ensures HasConfirmedAttendance(after.eventoActual.value, Some(u))
  {
    var e := s.events[eid];
    if u !in e.asistentes {
      assert e.(asistentes := e.asistentes + [u]).id == eid;
    }
  }

  /** After a successful cancellation of a duplicate-free attendee list the reloaded
      event no longer lists the user. */
  lemma CancelHidesAttendance(s: Stores, u: string, eid: string, before: EventUiState, after: EventUiState, commentsError: Option<string>)
    requires Keyed(s) && eid in s.events && Distinct(s.events[eid].asistentes)
    requires CancelSpec(s, Some(u), eid).result.Success?
    requires var o := CancelSpec(s, Some(u), eid).after;
      LoadedEvent(before, after, eid, o.events, o.comments, commentsError)
    ensures after.eventoActual.Some? && after.eventoActual.value.id == eid
    ensures !HasConfirmedAttendance(after.eventoActual.value, Some(u))
  {
    var e := s.events[eid];
    assert e.(asistentes := RemoveFirst(e.asistentes, u)).id == eid;
    RemoveFirstKeepsDistinct(e.asistentes, u);
  }

  // ---------------------------------------------------------------------------
  // The view model

  class EventViewModel {
    const repository: EventRepository
    var ui: EventUiState

    /** Construction loads all events and then the upcoming ones. */
    constructor(repository: EventRepository, now: int, allError: Option<string>, upcomingError: Option<string>)
      ensures this.repository == repository
      ensures !ui.isLoading && ui.eventoActual == None && ui.successMessage == None
      ensures ui.eventosPasados == [] && ui.misEventos == [] && ui.comentarios == []
      ensures allError.None? ==> forall e :: e in ui.eventos <==> e in repository.remote.events.Values
      ensures allError.Some? ==> ui.eventos == []
      ensures upcomingError.None? ==> forall e :: e in ui.proximosEventos <==> e in repository.remote.events.Values && e.fecha >= now
      ensures upcomingError.Some? ==> ui.proximosEventos == [] && ui.errorMessage == Some(UpcomingFailed + upcomingError.value)
      ensures upcomingError.None? ==> ui.errorMessage == if allError.Some? then Some(AllEventsFailed + allError.value) else None
    {
      this.repository := repository;
      ui := InitialEventUi;
      new;
      LoadAllEvents(allError);
      LoadProximosEventos(now, upcomingError);
    }

    /** loadAllEvents: every event, newest first. */
    method LoadAllEvents(listenerError: Option<string>)
      modifies this
      ensures listenerError.Some? ==> ui == old(ui).(isLoading := false, errorMessage := Some(AllEventsFailed + listenerError.value))
      ensures listenerError.None? ==> ui == old(ui).(isLoading := false, eventos := ui.eventos)
      ensures listenerError.None? ==> (SortedBy(ui.eventos, Fecha, false)
        && (forall e :: e in ui.eventos <==> e in repository.remote.events.Values))
    {
      ui := ui.(isLoading := true);
      if listenerError.Some? {
        ui := ui.(isLoading := false, errorMessage := Some(AllEventsFailed + listenerError.value));
      } else {
        var docs := repository.remote.QueryEvents();
        ui := ui.(isLoading := false, eventos := AllEvents(docs));
      }
    }

    /** loadProximosEventos: events dated at or after now, soonest first. */
    method LoadProximosEventos(now: int, listenerError: Option<string>)
      modifies this
      ensures listenerError.Some? ==> ui == old(ui).(errorMessage := Some(UpcomingFailed + listenerError.value))
      ensures listenerError.None? ==> ui == old(ui).(proximosEventos := ui.proximosEventos)
      ensures listenerError.None? ==> (SortedBy(ui.proximosEventos, Fecha, true)
        && (forall e :: e in ui.proximosEventos <==> e in repository.remote.events.Values && !HasEventPassed(e, now)))
    {
      if listenerError.Some? {
        ui := ui.(errorMessage := Some(UpcomingFailed + listenerError.value));
      } else {
        var docs := repository.remote.QueryEvents();
        ui := ui.(proximosEventos := ProximosEventos(docs, now));
      }
    }

    /** loadEventosPasados: events dated before now, latest first. */
    method LoadEventosPasados(now: int, listenerError: Option<string>)
      modifies this
      ensures listenerError.Some? ==> ui == old(ui).(errorMessage := Some(PastFailed + listenerError.value))
      ensures listenerError.None? ==> ui == old(ui).(eventosPasados := ui.eventosPasados)
      ensures listenerError.None? ==> (SortedBy(ui.eventosPasados, Fecha, false)
        && (forall e :: e in ui.eventosPasados <==> e in repository.remote.events.Values && HasEventPassed(e, now)))
    {
      if listenerError.Some? {
        ui := ui.(errorMessage := Some(PastFailed + listenerError.value));
      } else {
        var docs := repository.remote.QueryEvents();
        ui := ui.(eventosPasados := EventosPasados(docs, now));
      }
    }

    /** loadMisEventos: the signed-in user's events, newest first; signed out, the
        events whose organizer id is empty. */
    method LoadMisEventos(uid: Option<string>, listenerError: Option<string>)
      modifies this
      ensures listenerError.Some? ==> ui == old(ui).(errorMessage := Some(MineFailed + listenerError.value))
      ensures listenerError.None? ==> ui == old(ui).(misEventos := ui.misEventos)
      ensures listenerError.None? ==> SortedBy(ui.misEventos, Fecha, false)
      ensures listenerError.None? && uid.Some? ==>
        forall e :: e in ui.misEventos <==> e in repository.remote.events.Values && IsOrganizador(e, uid)
      ensures listenerError.None? && uid.None? ==>
        forall e :: e in ui.misEventos <==> e in repository.remote.events.Values && e.organizadorId == ""
    {
      if listenerError.Some? {
        ui := ui.(errorMessage := Some(MineFailed + listenerError.value));
      } else {
        var docs := repository.remote.QueryEvents();
        ui := ui.(misEventos := MisEventos(docs, uid));
      }
    }

    /** loadComments: the event's comments, newest first. */
    method LoadComments(eid: string, listenerError: Option<string>)
      modifies this
      ensures listenerError.Some? ==> ui == old(ui).(errorMessage := Some(CommentsFailed + listenerError.value))
      ensures listenerError.None? ==> (ui == old(ui).(comentarios := ui.comentarios)
        && ShowsComments(ui.comentarios, repository.remote.comments, eid))
    {
      if listenerError.Some? {
        ui := ui.(errorMessage := Some(CommentsFailed + listenerError.value));
      } else {
        var cs := repository.remote.QueryCommentsByEvento(eid);
        ui := ui.(comentarios := CommentsByEvento(cs, eid));
      }
    }

    /** loadEventById */
    method LoadEventById(eid: string, commentsError: Option<string>)
      modifies this
      ensures LoadedEvent(old(ui), ui, eid, repository.remote.events, repository.remote.comments, commentsError)
    {
      ui := ui.(isLoading := true);
      var event := repository.GetEventById(eid);
      if event.Some? {
        ui := ui.(isLoading := false, eventoActual := event);
        LoadComments(eid, commentsError);
      } else {
        ui := ui.(isLoading := false, errorMessage := Some(EventNotFound));
      }
    }

    /** createEvent: returns whether the success callback ran. */
    method CreateEvent(uid: Option<string>, draft: Event, newId: string, now: int) returns (callbackRan: bool)
      modifies this, repository.remote, repository.eventDao
      ensures var o := CreateEventSpec(old(repository.State()), uid, draft, newId, now);
        repository.State() == o.after && ui == SettleWrite(old(ui), o.result, Created, CreateFailed)
        && callbackRan == o.result.Success?
    {
      ui := ui.(isLoading := true);
      var r := repository.CreateEvent(uid, draft, newId, now);
      ui := SettleWrite(ui, r, Created, CreateFailed);
      callbackRan := r.Success?;
    }

    /** updateEvent: returns whether the success callback ran. */
    method UpdateEvent(e: Event) returns (callbackRan: bool)
      modifies this, repository.remote, repository.eventDao
      ensures var o := UpdateEventSpec(old(repository.State()), e);
        repository.State() == o.after && ui == SettleWrite(old(ui), o.result, Updated, UpdateFailed)
        && callbackRan == o.result.Success?
    {
      ui := ui.(isLoading := true);
      var r := repository.UpdateEvent(e);
      ui := SettleWrite(ui, r, Updated, UpdateFailed);
      callbackRan := r.Success?;
    }

    /** deleteEvent: returns whether the success callback ran. */
    method DeleteEvent(uid: Option<string>, eid: string) returns (callbackRan: bool)
      modifies this, repository.remote, repository.eventDao, repository.commentDao
      ensures var o := DeleteEventSpec(old(repository.State()), uid, eid);
        repository.State() == o.after && ui == SettleWrite(old(ui), o.result, Deleted, DeleteFailed)
        && callbackRan == o.result.Success?
    {
      ui := ui.(isLoading := true);
      var r := repository.DeleteEvent(uid, eid);
      ui := SettleWrite(ui, r, Deleted, DeleteFailed);
      callbackRan := r.Success?;
    }

    /** confirmarAsistencia: a failure only shows the error; a success shows the
        message, notifies about the new attendee when an event is on screen, and
        reloads the event. Returns the notice posted, if any. */
    method ConfirmarAsistencia(uid: Option<string>, displayName: Option<string>, eid: string,
                               permitted: bool, commentsError: Option<string>) returns (notice: Option<Notice>)
      modifies this, repository.remote, repository.eventDao
      ensures var o := ConfirmSpec(old(repository.State()), uid, eid);
        repository.State() == o.after
        && (o.result.Failure? ==> ui == old(ui).(errorMessage := Some(ConfirmFailed + o.result.message)) && notice == None)
        && (o.result.Success? ==> LoadedEvent(old(ui).(successMessage := Some(Confirmed)), ui, eid, o.after.events, o.after.comments, commentsError))
        && (o.result.Success? && old(ui).eventoActual.Some? && uid.Some? ==>
              notice == AttendeeNotice(permitted, eid, old(ui).eventoActual.value.titulo,
                                       if displayName.Some? then displayName.value else Someone))
        && (old(ui).eventoActual.None? ==> notice == None)
    {
      var r := repository.ConfirmarAsistencia(uid, eid);
      notice := None;
      if r.Success? {
        ui := ui.(successMessage := Some(Confirmed));
        if ui.eventoActual.Some? && uid.Some? {
          notice := AttendeeNotice(permitted, eid, ui.eventoActual.value.titulo,
                                   if displayName.Some? then displayName.value else Someone);
        }
        LoadEventById(eid, commentsError);
      } else {
        ui := ui.(errorMessage := Some(ConfirmFailed + r.message));
      }
    }

    /** cancelarAsistencia: a failure only shows the error; a success shows the
        message and reloads the event. */
    method CancelarAsistencia(uid: Option<string>, eid: string, commentsError: Option<string>)
      modifies this, repository.remote, repository.eventDao
      ensures var o := CancelSpec(old(repository.State()), uid, eid);
        repository.State() == o.after
        && (o.result.Failure? ==> ui == old(ui).(errorMessage := Some(CancelFailed + o.result.message)))
        && (o.result.Success? ==> LoadedEvent(old(ui).(successMessage := Some(Cancelled)), ui, eid, o.after.events, o.after.comments, commentsError))
    {
      var r := repository.CancelarAsistencia(uid, eid);
      if r.Success? {
        ui := ui.(successMessage := Some(Cancelled));
        LoadEventById(eid, commentsError);
      } else {
        ui := ui.(errorMessage := Some(CancelFailed + r.message));
      }
    }

    /** addComment: a success shows the message and notifies about the comment when
        an event is on screen; the event on screen is not reloaded. */
    method AddComment(c: Comment, newId: string, now: int, permitted: bool) returns (notice: Option<Notice>)
      modifies this, repository.remote, repository.commentDao
      ensures var o := AddCommentSpec(old(repository.State()), c, newId, now);
        repository.State() == o.after
        && (o.result.Failure? ==> ui == old(ui).(errorMessage := Some(CommentFailed + o.result.message)) && notice == None)
        && (o.result.Success? ==> ui == old(ui).(successMessage := Some(Commented)))
        && (o.result.Success? && old(ui).eventoActual.Some? ==>
              notice == CommentNotice(permitted, old(ui).eventoActual.value.id, old(ui).eventoActual.value.titulo,
                                      c.userName, c.calificacion))
        && (old(ui).eventoActual.None? ==> notice == None)
    {
      var r := repository.AddComment(c, newId, now);
      notice := None;
      if r.Success? {
        ui := ui.(successMessage := Some(Commented));
        if ui.eventoActual.Some? {
          var event := ui.eventoActual.value;
          notice := CommentNotice(permitted, event.id, event.titulo, c.userName, c.calificacion);
        }
      } else {
        ui := ui.(errorMessage := Some(CommentFailed + r.message));
      }
    }

    /** clearMessages */
    method ClearMessages()
      modifies this
      ensures ui == Cleared(old(ui))
    {
      ui := ui.(errorMessage := None, successMessage := None);
    }
  }
}
