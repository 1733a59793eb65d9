/** EventRepository: the event, attendance and comment operations, which write the
    remote store first and mirror the event and comment rows into the local tables.
    Each operation is specified by a function from the state of both stores before
    the call to the result and the state after it; the class replays the source's
    sequence of writes and is proved to reach exactly that state. */
module EventRepo {
  import opened Common
  import opened Seqs
  import opened Model
  import EventTable
  import CommentTable
  import opened Remote

  const NotAuthenticated: string := "Usuario no autenticado"
  const EventNotFound: string := "Evento no encontrado"

  /** Both stores: the remote collections and the local tables. */
  datatype Stores = Stores(
    events: map<string, Event>,
    users: map<string, User>,
    comments: map<string, Comment>,
    localEvents: map<string, Event>,
    localComments: map<string, Comment>)

  /** What an operation returns, and the stores it leaves behind. */
  datatype Outcome<T> = Outcome(result: Result<T>, after: Stores)

  /** Every document and row is stored under its own id. */
  predicate Keyed(s: Stores) {
    EventTable.KeyedById(s.events) && (forall k :: k in s.users ==> s.users[k].id == k)
    && CommentTable.KeyedById(s.comments)
    && EventTable.KeyedById(s.localEvents) && CommentTable.KeyedById(s.localComments)
  }

  /** updateEvent: overwrite the remote document; update the local row if there is one. */
  function UpdateEventSpec(s: Stores, e: Event): (o: Outcome<Event>)
    ensures o.result == Success(e) && e.id in o.after.events && o.after.events[e.id] == e
    ensures o.after.users == s.users && o.after.comments == s.comments
    ensures o.after.localComments == s.localComments
    ensures Keyed(s) ==> Keyed(o.after)
  {
    Outcome(Success(e), s.(events := s.events[e.id := e], localEvents := EventTable.UpdateRow(s.localEvents, e)))
  }

  /** The event createEvent stores: the draft under the new id, organised by the caller. */
  function Stamp(draft: Event, uid: string, newId: string, now: int): (e: Event)
    ensures e.id == newId && e.organizadorId == uid && e.fechaCreacion == now
    ensures e.(id := draft.id, organizadorId := draft.organizadorId, fechaCreacion := draft.fechaCreacion) == draft
  {
    draft.(id := newId, organizadorId := uid, fechaCreacion := now)
  }

  function CreateEventSpec(s: Stores, uid: Option<string>, draft: Event, newId: string, now: int): Outcome<Event> {
    match uid
    case None => Outcome(Failure(NotAuthenticated), s)
    case Some(u) =>
      var e := Stamp(draft, u, newId, now);
      var s1 := s.(events := s.events[newId := e], localEvents := EventTable.Upsert(s.localEvents, e));
      if u in s1.users then
        var user := s1.users[u];
        Outcome(Success(e), s1.(users := s1.users[u := user.(eventosCreados := user.eventosCreados + [newId])]))
      else
        Outcome(Failure(NoDocument), s1)
  }

  function DeleteEventSpec(s: Stores, uid: Option<string>, eid: string): Outcome<()> {
    match uid
    case None => Outcome(Failure(NotAuthenticated), s)
    case Some(u) =>
      var s1 := s.(events := s.events - {eid},
                   comments := CommentTable.DeleteForEvento(s.comments, eid),
                   localEvents := EventTable.DeleteRow(s.localEvents, eid),
                   localComments := CommentTable.DeleteForEvento(s.localComments, eid));
      if u in s1.users then
        var user := s1.users[u];
        Outcome(Success(()), s1.(users := s1.users[u := user.(eventosCreados := RemoveFirst(user.eventosCreados, eid))]))
      else
        Outcome(Failure(NoDocument), s1)
  }

  function ConfirmSpec(s: Stores, uid: Option<string>, eid: string): Outcome<()> {
    match uid
    case None => Outcome(Failure(NotAuthenticated), s)
    case Some(u) =>
      if eid !in s.events then Outcome(Failure(EventNotFound), s)
      else
        var e := s.events[eid];
        if u in e.asistentes then Outcome(Success(()), s)
        else
          var s1 := UpdateEventSpec(s, e.(asistentes := e.asistentes + [u])).after;
          if u in s1.users then
            var user := s1.users[u];
            Outcome(Success(()), s1.(users := s1.users[u := user.(eventosAsistidos := user.eventosAsistidos + [eid])]))
          else
            Outcome(Failure(NoDocument), s1)
  }

  function CancelSpec(s: Stores, uid: Option<string>, eid: string): Outcome<()> {
    match uid
    case None => Outcome(Failure(NotAuthenticated), s)
    case Some(u) =>
      if eid !in s.events then Outcome(Failure(EventNotFound), s)
      else
        var e := s.events[eid];
        var s1 := UpdateEventSpec(s, e.(asistentes := RemoveFirst(e.asistentes, u))).after;
        if u in s1.users then
          var user := s1.users[u];
          Outcome(Success(()), s1.(users := s1.users[u := user.(eventosAsistidos := RemoveFirst(user.eventosAsistidos, eid))]))
        else
          Outcome(Failure(NoDocument), s1)
  }

  /** actualizarCalificacionEvento: store the event's comment count and mean rating
      on its remote document, when it has comments. */
  ghost function RefreshRatingSpec(s: Stores, eid: string): Outcome<()> {
    match CommentTable.MeanFor(s.comments, eid)
    case None => Outcome(Success(()), s)
    case Some(mean) =>
      if eid in s.events then
        var e := s.events[eid];
        Outcome(Success(()), s.(events := s.events[eid := e.(calificacionPromedio := mean,
                                                          totalCalificaciones := CommentTable.CountFor(s.comments, eid))]))
      else
        Outcome(Failure(NoDocument), s)
  }

  ghost function AddCommentSpec(s: Stores, c: Comment, newId: string, now: int): Outcome<Comment> {
    var c1 := c.(id := newId, fecha := now);
    var s1 := s.(comments := s.comments[newId := c1], localComments := CommentTable.Upsert(s.localComments, c1));
    var o := RefreshRatingSpec(s1, c.eventoId);
    Outcome(if o.result.Success? then Success(c1) else Failure(o.result.message), o.after)
  }

  // ---------------------------------------------------------------------------
  // Queries over one snapshot of a collection

  function Fecha(e: Event): int {
    e.fecha
  }

  /** getAllEvents: every event, newest date first. */
  function AllEvents(snapshot: seq<Event>): (r: seq<Event>)
    ensures SortedBy(r, Fecha, false) && multiset(r) == multiset(snapshot)
  {
    SortBy(snapshot, Fecha, false)
  }

  /** getProximosEventos: events dated at or after `now`, soonest first. */
  function ProximosEventos(snapshot: seq<Event>, now: int): (r: seq<Event>)
    ensures SortedBy(r, Fecha, true)
    ensures forall e :: e in r <==> e in snapshot && e.fecha >= now
  {
    SortBy(Filter(snapshot, (e: Event) => e.fecha >= now), Fecha, true)
  }

  /** getEventosPasados: events dated before `now`, latest first. */
  function EventosPasados(snapshot: seq<Event>, now: int): (r: seq<Event>)
    ensures SortedBy(r, Fecha, false)
    ensures forall e :: e in r <==> e in snapshot && e.fecha < now
  {
    SortBy(Filter(snapshot, (e: Event) => e.fecha < now), Fecha, false)
  }

  /** getMisEventos: events organised by the signed-in user, or by "" when signed out. */
  function MisEventos(snapshot: seq<Event>, uid: Option<string>): (r: seq<Event>)
    ensures SortedBy(r, Fecha, false)
    ensures forall e :: e in r <==> e in snapshot && e.organizadorId == (if uid.Some? then uid.value else "")
  {
    var me := if uid.Some? then uid.value else "";
    SortBy(Filter(snapshot, (e: Event) => e.organizadorId == me), Fecha, false)
  }

  /** getCommentsByEvento: the event's comments, newest first. */
  function CommentsByEvento(snapshot: seq<Comment>, eid: string): (r: seq<Comment>)
    ensures SortedBy(r, CommentTable.Fecha, false)
    ensures forall c :: c in r <==> c in snapshot && c.eventoId == eid
  {
    SortBy(Filter(snapshot, CommentTable.ForEvento(eid)), CommentTable.Fecha, false)
  }

  /** At one instant every event is upcoming or past, and none is both. */
  lemma UpcomingPastPartition(snapshot: seq<Event>, now: int)
    ensures multiset(ProximosEventos(snapshot, now)) + multiset(EventosPasados(snapshot, now)) == multiset(snapshot)
  {
    FilterSplit(snapshot, (e: Event) => e.fecha >= now, (e: Event) => e.fecha < now);
  }

  // ---------------------------------------------------------------------------
  // Properties of the operations

  /** Without a signed-in user createEvent fails before writing anything. */
  lemma CreateEventSignedOut(s: Stores, draft: Event, newId: string, now: int)
    ensures CreateEventSpec(s, None, draft, newId, now) == Outcome(Failure(NotAuthenticated), s)
  {
  }

  /** createEvent stores the draft under the new id in both stores with the caller as
      organiser, whatever organiser the draft named, and appends the id to the
      caller's eventosCreados (no de-duplication); nothing else changes. */
  lemma CreateEventStores(s: Stores, u: string, draft: Event, newId: string, now: int)
    requires u in s.users
    ensures var o := CreateEventSpec(s, Some(u), draft, newId, now);
      && o.result == Success(Stamp(draft, u, newId, now))
      && o.after.events == s.events[newId := Stamp(draft, u, newId, now)]
      && o.after.localEvents[newId] == Stamp(draft, u, newId, now)
      && o.after.events[newId].organizadorId == u
      && o.after.users[u].eventosCreados == s.users[u].eventosCreados + [newId]
      && (forall k :: k in s.users && k != u ==> k in o.after.users && o.after.users[k] == s.users[k])
      && o.after.comments == s.comments && o.after.localComments == s.localComments
  {
  }

  /** Confirming for a missing event fails without a write. */
  lemma ConfirmMissingEvent(s: Stores, u: string, eid: string)
    requires eid !in s.events
    ensures ConfirmSpec(s, Some(u), eid) == Outcome(Failure(EventNotFound), s)
  {
  }

  /** Confirming twice is confirming once: the second call finds the user listed. */
  lemma ConfirmIdempotent(s: Stores, u: string, eid: string)
    requires Keyed(s)
    requires ConfirmSpec(s, Some(u), eid).result.Success?
    ensures var s1 := ConfirmSpec(s, Some(u), eid).after;
      ConfirmSpec(s1, Some(u), eid) == Outcome(Success(()), s1)
  {
    var e := s.events[eid];
    if u !in e.asistentes {
      assert e.(asistentes := e.asistentes + [u]).id == eid;
    }
  }

  /** The attendee list never gains a duplicate, and the user is on it afterwards. */
  lemma ConfirmKeepsDistinct(s: Stores, u: string, eid: string)
    requires Keyed(s) && eid in s.events && Distinct(s.events[eid].asistentes)
    ensures var s1 := ConfirmSpec(s, Some(u), eid).after;
      eid in s1.events && Distinct(s1.events[eid].asistentes) && u in s1.events[eid].asistentes
  {
    var e := s.events[eid];
    if u !in e.asistentes {
      assert e.(asistentes := e.asistentes + [u]).id == eid;
      var xs := e.asistentes + [u];
      assert forall i :: 0 <= i < |e.asistentes| ==> xs[i] == e.asistentes[i] && xs[i] != u;
    }
  }

  /** No capacity is enforced: a user joins even when the event is full. */
  lemma ConfirmIgnoresCapacity(s: Stores, u: string, eid: string)
    requires Keyed(s) && eid in s.events && u !in s.events[eid].asistentes
    requires s.events[eid].capacidadMaxima.Some?
    requires |s.events[eid].asistentes| >= s.events[eid].capacidadMaxima.value
    ensures var s1 := ConfirmSpec(s, Some(u), eid).after;
      eid in s1.events && |s1.events[eid].asistentes| > s1.events[eid].capacidadMaxima.value
  {
    var e := s.events[eid];
    assert e.(asistentes := e.asistentes + [u]).id == eid;
  }

  /** Confirming a user who is not yet attending appends the user to the event's
      attendees and the event to the user's eventosAsistidos, and nothing else in
      the remote store changes. */
  lemma ConfirmAddsAttendee(s: Stores, u: string, eid: string)
    requires Keyed(s) && eid in s.events && u !in s.events[eid].asistentes && u in s.users
    ensures var e, user := s.events[eid], s.users[u];
      var o := ConfirmSpec(s, Some(u), eid);
      && o.result == Success(())
      && o.after.events == s.events[eid := e.(asistentes := e.asistentes + [u])]
      && o.after.users == s.users[u := user.(eventosAsistidos := user.eventosAsistidos + [eid])]
      && o.after.comments == s.comments
  {
    var e := s.events[eid];
    assert e.(asistentes := e.asistentes + [u]).id == eid;
  }

  /** Cancelling removes the first occurrence of the user from the attendees and of
      the event from the user's eventosAsistidos, and nothing else in the remote
      store changes. */
  lemma CancelTakesAttendee(s: Stores, u: string, eid: string)
    requires eid in s.events && s.events[eid].id == eid && u in s.users
    ensures var e, user := s.events[eid], s.users[u];
      var o := CancelSpec(s, Some(u), eid);
      && o.result == Success(())
      && o.after.events == s.events[eid := e.(asistentes := RemoveFirst(e.asistentes, u))]
      && o.after.users == s.users[u := user.(eventosAsistidos := RemoveFirst(user.eventosAsistidos, eid))]
      && o.after.comments == s.comments
  {
  }

  /** For a user not attending, confirming and then cancelling restores the remote
      store exactly: the attendee list and the user's eventosAsistidos. */
  lemma ConfirmThenCancel(s: Stores, u: string, eid: string)
    requires Keyed(s) && eid in s.events && u !in s.events[eid].asistentes
    requires u in s.users && eid !in s.users[u].eventosAsistidos
    ensures var s1 := ConfirmSpec(s, Some(u), eid);
      var s2 := CancelSpec(s1.after, Some(u), eid);
      s1.result.Success? && s2.result.Success?
      && s2.after.events == s.events && s2.after.users == s.users && s2.after.comments == s.comments
  {
    var e, user := s.events[eid], s.users[u];
    var e1 := e.(asistentes := e.asistentes + [u]);
    var user1 := user.(eventosAsistidos := user.eventosAsistidos + [eid]);
    ConfirmAddsAttendee(s, u, eid);
    var s1 := ConfirmSpec(s, Some(u), eid).after;
    assert s1.events == s.events[eid := e1] && s1.users == s.users[u := user1];
    CancelTakesAttendee(s1, u, eid);
    assert e1.(asistentes := RemoveFirst(e1.asistentes, u)) == e by {
      RemoveFirstAppended(e.asistentes, u);
    }
    assert user1.(eventosAsistidos := RemoveFirst(user1.eventosAsistidos, eid)) == user by {
      RemoveFirstAppended(user.eventosAsistidos, eid);
    }
    UpdateUndone(s.events, eid, e1);
    UpdateUndone(s.users, u, user1);
  }

  /** Storing a value under a key and then storing back the old one restores the map. */
  lemma UpdateUndone<K, V>(m: map<K, V>, k: K, v: V)
    requires k in m
    ensures m[k := v][k := m[k]] == m
  {
  }

  /** Cancelling removes only the first occurrence of the user. */
  lemma CancelRemovesOne(s: Stores, u: string, eid: string)
    requires Keyed(s) && eid in s.events && u in s.events[eid].asistentes
    ensures var s1 := CancelSpec(s, Some(u), eid).after;
      eid in s1.events
      && multiset(s1.events[eid].asistentes) == multiset(s.events[eid].asistentes) - multiset{u}
  {
    var e := s.events[eid];
    assert e.(asistentes := RemoveFirst(e.asistentes, u)).id == eid;
  }

  /** deleteEvent removes the event and exactly its comments from both stores and
      leaves every other event and comment as it was. */
  lemma DeleteEventCascades(s: Stores, u: string, eid: string)
    ensures var s1 := DeleteEventSpec(s, Some(u), eid).after;
      && eid !in s1.events && eid !in s1.localEvents
      && (forall k :: k in s.events && k != eid ==> k in s1.events && s1.events[k] == s.events[k])
      && (forall k :: k in s1.comments <==> k in s.comments && s.comments[k].eventoId != eid)
      && (forall k :: k in s1.comments ==> s1.comments[k] == s.comments[k])
      && (forall k :: k in s1.localComments <==> k in s.localComments && s.localComments[k].eventoId != eid)
      && CommentTable.CountFor(s1.comments, eid) == 0
  {
    CommentTable.DeleteForEventoCount(s.comments, eid);
  }

  /** deleteEvent does not check that the caller organised the event: any signed-in
      user deletes any event. */
  lemma DeleteEventIgnoresOrganizer(s: Stores, u: string, eid: string)
    requires eid in s.events && s.events[eid].organizadorId != u
    ensures eid !in DeleteEventSpec(s, Some(u), eid).after.events
  {
  }

  /** After addComment on an existing event, its stored count and mean rating are
      those of all its remote comments, the new one included. */
  lemma AddCommentRating(s: Stores, c: Comment, newId: string, now: int)
    requires c.eventoId in s.events
    ensures var o := AddCommentSpec(s, c, newId, now);
      var eid := c.eventoId;
      && o.result == Success(c.(id := newId, fecha := now))
      && newId in o.after.comments
      && o.after.events[eid].totalCalificaciones == CommentTable.CountFor(o.after.comments, eid)
      && CommentTable.MeanFor(o.after.comments, eid) == Some(o.after.events[eid].calificacionPromedio)
  {
    var c1 := c.(id := newId, fecha := now);
    CommentTable.CountForPresent(s.comments[newId := c1], newId, c.eventoId);
  }

  /** With a fresh id, the new comment adds one to the event's count. */
  lemma AddCommentCounts(s: Stores, c: Comment, newId: string, now: int)
    requires newId !in s.comments
    ensures var o := AddCommentSpec(s, c, newId, now);
      CommentTable.CountFor(o.after.comments, c.eventoId) == CommentTable.CountFor(s.comments, c.eventoId) + 1
  {
    CommentTable.CountForAdd(s.comments, c.(id := newId, fecha := now), c.eventoId);
  }

  /** The comment is stored even when the event's document is missing and the
      operation reports a failure; the local event row is never re-rated. */
  lemma AddCommentPartial(s: Stores, c: Comment, newId: string, now: int)
    ensures var o := AddCommentSpec(s, c, newId, now);
      && newId in o.after.comments && newId in o.after.localComments
      && o.after.localEvents == s.localEvents
      && (c.eventoId !in s.events ==> o.result == Failure(NoDocument))
  {
    var c1 := c.(id := newId, fecha := now);
    CommentTable.CountForPresent(s.comments[newId := c1], newId, c.eventoId);
  }

  /** Each operation keeps every document and row under its own id. */
  lemma CreateEventKeepsKeyed(s: Stores, uid: Option<string>, draft: Event, newId: string, now: int)
    requires Keyed(s)
    ensures Keyed(CreateEventSpec(s, uid, draft, newId, now).after)
  {
  }

  lemma DeleteEventKeepsKeyed(s: Stores, uid: Option<string>, eid: string)
    requires Keyed(s)
    ensures Keyed(DeleteEventSpec(s, uid, eid).after)
  {
  }

  lemma ConfirmKeepsKeyed(s: Stores, uid: Option<string>, eid: string)
    requires Keyed(s)
    ensures Keyed(ConfirmSpec(s, uid, eid).after)
  {
    if uid.Some? && eid in s.events {
      var e := s.events[eid];
      assert e.(asistentes := e.asistentes + [uid.value]).id == eid;
    }
  }

  lemma CancelKeepsKeyed(s: Stores, uid: Option<string>, eid: string)
    requires Keyed(s)
    ensures Keyed(CancelSpec(s, uid, eid).after)
  {
    if uid.Some? && eid in s.events {
      var e := s.events[eid];
      assert e.(asistentes := RemoveFirst(e.asistentes, uid.value)).id == eid;
    }
  }

  lemma AddCommentKeepsKeyed(s: Stores, c: Comment, newId: string, now: int)
    requires Keyed(s)
    ensures Keyed(AddCommentSpec(s, c, newId, now).after)
  {
  }

  // ---------------------------------------------------------------------------
  // The repository

  class EventRepository {
    const remote: Firestore
    const eventDao: EventTable.EventDao
    const commentDao: CommentTable.CommentDao

    constructor(remote: Firestore, eventDao: EventTable.EventDao, commentDao: CommentTable.CommentDao)
      ensures this.remote == remote && this.eventDao == eventDao && this.commentDao == commentDao
    {
      this.remote := remote;
      this.eventDao := eventDao;
      this.commentDao := commentDao;
    }

    function State(): Stores
      reads remote, eventDao, commentDao
    {
      Stores(remote.events, remote.users, remote.comments, eventDao.rows, commentDao.rows)
    }

    method CreateEvent(uid: Option<string>, draft: Event, newId: string, now: int) returns (r: Result<Event>)
      modifies remote, eventDao
      ensures Outcome(r, State()) == CreateEventSpec(old(State()), uid, draft, newId, now)
    {
      if uid.None? {
        return Failure(NotAuthenticated);
      }
      var userId := uid.value;
      var e := draft.(id := newId, organizadorId := userId, fechaCreacion := now);
      remote.SetEvent(e);
      eventDao.InsertEvent(e);
      var userDoc := remote.GetUser(userId);
      var creados := if userDoc.Some? then userDoc.value.eventosCreados else [];
      var ok := remote.UpdateEventosCreados(userId, creados + [e.id]);
      if !ok {
        return Failure(NoDocument);
      }
      r := Success(e);
    }

    method UpdateEvent(e: Event) returns (r: Result<Event>)
      modifies remote, eventDao
      ensures Outcome(r, State()) == UpdateEventSpec(old(State()), e)
    {
      remote.SetEvent(e);
      eventDao.UpdateEvent(e);
      r := Success(e);
    }

    method DeleteEvent(uid: Option<string>, eid: string) returns (r: Result<()>)
      modifies remote, eventDao, commentDao
      ensures Outcome(r, State()) == DeleteEventSpec(old(State()), uid, eid)
    {
      if uid.None? {
        return Failure(NotAuthenticated);
      }
      var userId := uid.value;
      remote.DeleteEvent(eid);
      DeleteRemoteComments(eid);
      eventDao.DeleteEventById(eid);
      commentDao.DeleteCommentsByEvento(eid);
      var userDoc := remote.GetUser(userId);
      var creados := if userDoc.Some? then userDoc.value.eventosCreados else [];
      var ok := remote.UpdateEventosCreados(userId, RemoveFirst(creados, eid));
      if !ok {
        return Failure(NoDocument);
      }
      r := Success(());
    }

    /** The comments query of deleteEvent: delete every remote comment document in
        the snapshot that is about event `eid`. */
    method DeleteRemoteComments(eid: string)
      modifies remote
      ensures remote.comments == CommentTable.DeleteForEvento(old(remote.comments), eid)
      ensures remote.events == old(remote.events) && remote.users == old(remote.users)
    {
      var snapshot := remote.comments;
      var pending := snapshot.Keys;
      while pending != {}
        invariant pending <= snapshot.Keys
        invariant remote.events == old(remote.events) && remote.users == old(remote.users)
        invariant forall k :: k in remote.comments <==> k in snapshot && (k in pending || snapshot[k].eventoId != eid)
        invariant forall k :: k in remote.comments ==> remote.comments[k] == snapshot[k]
        decreases |pending|
      {
        var k :| k in pending;
        if snapshot[k].eventoId == eid {
          remote.DeleteComment(k);
        }
        pending := pending - {k};
      }
    }

    /** getEventById: the remote document, or None when there is none. */
    method GetEventById(eid: string) returns (r: Option<Event>)
      ensures r.Some? <==> eid in State().events
      ensures r.Some? ==> r.value == State().events[eid]
    {
      r := remote.GetEvent(eid);
    }

    method ConfirmarAsistencia(uid: Option<string>, eid: string) returns (r: Result<()>)
      modifies remote, eventDao
      ensures Outcome(r, State()) == ConfirmSpec(old(State()), uid, eid)
    {
      if uid.None? {
        return Failure(NotAuthenticated);
      }
      var userId := uid.value;
      var found := remote.GetEvent(eid);
      if found.None? {
        return Failure(EventNotFound);
      }
      var event := found.value;
      if userId !in event.asistentes {
        var updated := UpdateEvent(event.(asistentes := event.asistentes + [userId]));
        var userDoc := remote.GetUser(userId);
        var asistidos := if userDoc.Some? then userDoc.value.eventosAsistidos else [];
        var ok := remote.UpdateEventosAsistidos(userId, asistidos + [eid]);
        if !ok {
          return Failure(NoDocument);
        }
      }
      r := Success(());
    }

    method CancelarAsistencia(uid: Option<string>, eid: string) returns (r: Result<()>)
      modifies remote, eventDao
      ensures Outcome(r, State()) == CancelSpec(old(State()), uid, eid)
    {
      if uid.None? {
        return Failure(NotAuthenticated);
      }
      var userId := uid.value;
      var found := remote.GetEvent(eid);
      if found.None? {
        return Failure(EventNotFound);
      }
      var event := found.value;
      var updated := UpdateEvent(event.(asistentes := RemoveFirst(event.asistentes, userId)));
      var userDoc := remote.GetUser(userId);
      var asistidos := if userDoc.Some? then userDoc.value.eventosAsistidos else [];
      var ok := remote.UpdateEventosAsistidos(userId, RemoveFirst(asistidos, eid));
      if !ok {
        return Failure(NoDocument);
      }
      r := Success(());
    }

    method AddComment(c: Comment, newId: string, now: int) returns (r: Result<Comment>)
      modifies remote, commentDao
      ensures Outcome(r, State()) == AddCommentSpec(old(State()), c, newId, now)
    {
      var stored := c.(id := newId, fecha := now);
      remote.SetComment(stored);
      commentDao.InsertComment(stored);
      var refreshed := ActualizarCalificacionEvento(c.eventoId);
      if refreshed.Failure? {
        return Failure(refreshed.message);
      }
      r := Success(stored);
    }

    method ActualizarCalificacionEvento(eid: string) returns (r: Result<()>)
      modifies remote
      ensures Outcome(r, State()) == RefreshRatingSpec(old(State()), eid)
    {
      ghost var s0 := State();
      var comments := remote.QueryCommentsByEvento(eid);
      ghost var count := CommentTable.CountFor(s0.comments, eid);
      ghost var mean := CommentTable.MeanFor(s0.comments, eid);
      if comments != [] {
        var promedio := CommentTable.Average(comments).value;
        var ok := remote.UpdateRating(eid, promedio, |comments|);
        if !ok {
          assert State() == s0;
          return Failure(NoDocument);
        }
        assert State() == s0.(events := s0.events[eid := s0.events[eid].(calificacionPromedio := mean.value, totalCalificaciones := count)]);
      } else {
        assert mean.None?;
      }
      r := Success(());
    }
  }
}
