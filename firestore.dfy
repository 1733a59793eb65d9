/** The remote document store: the `events`, `users` and `comments` collections,
    each a map from document id to document, with the document operations the
    repositories use. `set` creates or overwrites, `delete` of a missing document
    succeeds, and `update` of a missing document fails. */
module Remote {
  import opened Common
  import opened Seqs
  import opened Model
  import CommentTable

  /** The error an `update` of a missing document raises. */
  const NoDocument: string := "NOT_FOUND: No document to update"

  class Firestore {
    var events: map<string, Event>
    var users: map<string, User>
    var comments: map<string, Comment>

    constructor()
      ensures events == map[] && users == map[] && comments == map[]
    {
      events := map[];
      users := map[];
      comments := map[];
    }

    /** Reads one event document; None when there is none. */
    method GetEvent(id: string) returns (r: Option<Event>)
      ensures r == if id in events then Some(events[id]) else None
    {
      r := if id in events then Some(events[id]) else None;
    }

    method GetUser(uid: string) returns (r: Option<User>)
      ensures r == if uid in users then Some(users[uid]) else None
    {
      r := if uid in users then Some(users[uid]) else None;
    }

    /** The events collection read in one go: every event document, in storage order. */
    method QueryEvents() returns (es: seq<Event>)
      ensures forall e :: e in es <==> e in events.Values
      ensures |es| == |events|
    {
      var ks := KeysOf(events);
      es := ValuesAlong(events, ks);
      ValuesAlongCovers(events, ks);
    }

    /** whereEqualTo("eventoId", id).get(): the event's comment documents, in
        storage order, with the count and mean rating they carry. */
    method QueryCommentsByEvento(eid: string) returns (cs: seq<Comment>)
      ensures forall c :: c in cs <==> c in comments.Values && c.eventoId == eid
      ensures |cs| == CommentTable.CountFor(comments, eid)
      ensures CommentTable.Average(cs) == CommentTable.MeanFor(comments, eid)
    {
      var ks := KeysOf(comments);
      var vs := ValuesAlong(comments, ks);
      ValuesAlongCovers(comments, ks);
      cs := Filter(vs, CommentTable.ForEvento(eid));
      CommentTable.ScanAggregates(comments, ks, eid);
    }

    method SetEvent(e: Event)
      modifies this
      ensures events == old(events)[e.id := e]
      ensures users == old(users) && comments == old(comments)
    {
      events := events[e.id := e];
    }

    method DeleteEvent(id: string)
      modifies this
      ensures events == old(events) - {id}
      ensures users == old(users) && comments == old(comments)
    {
      events := events - {id};
    }

    method SetComment(c: Comment)
      modifies this
      ensures comments == old(comments)[c.id := c]
      ensures events == old(events) && users == old(users)
    {
      comments := comments[c.id := c];
    }

    method DeleteComment(id: string)
      modifies this
      ensures comments == old(comments) - {id}
      ensures events == old(events) && users == old(users)
    {
      comments := comments - {id};
    }

    method SetUser(u: User)
      modifies this
      ensures users == old(users)[u.id := u]
      ensures events == old(events) && comments == old(comments)
    {
      users := users[u.id := u];
    }

    /** update("eventosCreados", ids) on the user's document. */
    method UpdateEventosCreados(uid: string, ids: seq<string>) returns (ok: bool)
      modifies this
      ensures ok == (uid in old(users))
      ensures users == if ok then old(users)[uid := old(users)[uid].(eventosCreados := ids)] else old(users)
      ensures events == old(events) && comments == old(comments)
    {
      ok := uid in users;
      if ok {
        users := users[uid := users[uid].(eventosCreados := ids)];
      }
    }

    /** update("eventosAsistidos", ids) on the user's document. */
    method UpdateEventosAsistidos(uid: string, ids: seq<string>) returns (ok: bool)
      modifies this
      ensures ok == (uid in old(users))
      ensures users == if ok then old(users)[uid := old(users)[uid].(eventosAsistidos := ids)] else old(users)
      ensures events == old(events) && comments == old(comments)
    {
      ok := uid in users;
      if ok {
        users := users[uid := users[uid].(eventosAsistidos := ids)];
      }
    }

    /** update(calificacionPromedio, totalCalificaciones) on the event's document. */
    method UpdateRating(id: string, promedio: real, total: int) returns (ok: bool)
      modifies this
      ensures ok == (id in old(events))
      ensures events == if ok then old(events)[id := old(events)[id].(calificacionPromedio := promedio, totalCalificaciones := total)] else old(events)
      ensures users == old(users) && comments == old(comments)
    {
      ok := id in events;
      if ok {
        events := events[id := events[id].(calificacionPromedio := promedio, totalCalificaciones := total)];
      }
    }
  }
}
