/** The local `events` table: rows keyed by event id, the writes Room generates for
    the DAO's @Insert/@Update/@Delete methods, and its SELECT queries. */
module EventTable {
  import opened Common
  import opened Seqs
  import opened Model

  /** Every row is stored under its own primary key. */
  predicate KeyedById(rows: map<string, Event>) {
    forall k :: k in rows ==> rows[k].id == k
  }

  /** INSERT OR REPLACE of one row. */
  function Upsert(rows: map<string, Event>, e: Event): (r: map<string, Event>)
    ensures e.id in r && r[e.id] == e
    ensures forall k :: k != e.id ==> (k in r <==> k in rows)
    ensures forall k :: k != e.id && k in rows ==> r[k] == rows[k]
    ensures KeyedById(rows) ==> KeyedById(r)
  {
    rows[e.id := e]
  }

  /** The keys a list of rows is stored under. */
  function Ids(es: seq<Event>): set<string> {
    set e | e in es :: e.id
  }

  /** INSERT OR REPLACE of a list of rows, in list order (a later duplicate wins). */
  function UpsertAll(rows: map<string, Event>, es: seq<Event>): (r: map<string, Event>)
    ensures r.Keys == rows.Keys + Ids(es)
    ensures forall k :: k in rows && k !in Ids(es) ==> r[k] == rows[k]
    ensures KeyedById(rows) ==> KeyedById(r)
  {
    if es == [] then rows
    else
      var init := es[..|es| - 1];
      assert es == init + [es[|es| - 1]];
      assert Ids(es) == Ids(init) + {es[|es| - 1].id};
      Upsert(UpsertAll(rows, init), es[|es| - 1])
  }

  /** A listed row that no later row replaces is stored as given. */
  lemma {:induction false} UpsertAllLastWins(rows: map<string, Event>, es: seq<Event>, i: nat)
    requires i < |es|
    requires forall j :: i < j < |es| ==> es[j].id != es[i].id
    ensures UpsertAll(rows, es)[es[i].id] == es[i]
  {
    if i < |es| - 1 {
      UpsertAllLastWins(rows, es[..|es| - 1], i);
    }
  }

  /** @Update: replaces the row with the same key, and does nothing when there is none. */
  function UpdateRow(rows: map<string, Event>, e: Event): (r: map<string, Event>)
    ensures forall k :: k in r <==> k in rows
    ensures e.id in rows ==> r[e.id] == e
    ensures forall k :: k != e.id && k in rows ==> r[k] == rows[k]
    ensures KeyedById(rows) ==> KeyedById(r)
  {
    if e.id in rows then rows[e.id := e] else rows
  }

  /** DELETE ... WHERE id = :id (also what @Delete does with a row's key). */
  function DeleteRow(rows: map<string, Event>, id: string): (r: map<string, Event>)
    ensures id !in r
    ensures forall k :: k != id ==> (k in r <==> k in rows)
    ensures forall k :: k in r ==> r[k] == rows[k]
    ensures KeyedById(rows) ==> KeyedById(r)
  {
    rows - {id}
  }

  function Fecha(e: Event): int {
    e.fecha
  }

  /** WHERE fecha >= :fechaActual AND estado = PROXIMO */
  predicate IsUpcoming(e: Event, now: int) {
    e.fecha >= now && e.estado == Proximo
  }

  /** WHERE fecha < :fechaActual OR estado = FINALIZADO */
  predicate IsPast(e: Event, now: int) {
    e.fecha < now || e.estado == Finalizado
  }

  /** SELECT * FROM events ORDER BY fecha DESC */
  function AllRows(rows: seq<Event>): (r: seq<Event>)
    ensures SortedBy(r, Fecha, false)
    ensures multiset(r) == multiset(rows)
    ensures forall e :: e in r <==> e in rows
  {
    SortBy(rows, Fecha, false)
  }

  /** SELECT * FROM events WHERE estado = :estado ORDER BY fecha ASC */
  function RowsByEstado(rows: seq<Event>, estado: EstadoEvento): (r: seq<Event>)
    ensures SortedBy(r, Fecha, true)
    ensures multiset(r) <= multiset(rows)
    ensures forall e :: e in r <==> e in rows && e.estado == estado
  {
    SortBy(Filter(rows, (e: Event) => e.estado == estado), Fecha, true)
  }

  /** SELECT * FROM events WHERE organizadorId = :organizadorId ORDER BY fecha DESC */
  function RowsByOrganizador(rows: seq<Event>, organizadorId: string): (r: seq<Event>)
    ensures SortedBy(r, Fecha, false)
    ensures multiset(r) <= multiset(rows)
    ensures forall e :: e in r <==> e in rows && e.organizadorId == organizadorId
  {
    SortBy(Filter(rows, (e: Event) => e.organizadorId == organizadorId), Fecha, false)
  }

  /** The upcoming-events query, ascending by date. */
  function UpcomingRows(rows: seq<Event>, now: int): (r: seq<Event>)
    ensures SortedBy(r, Fecha, true)
    ensures multiset(r) <= multiset(rows)
    ensures forall e :: e in r <==> e in rows && IsUpcoming(e, now)
  {
    SortBy(Filter(rows, e => IsUpcoming(e, now)), Fecha, true)
  }

  /** The past-events query, descending by date. */
  function PastRows(rows: seq<Event>, now: int): (r: seq<Event>)
    ensures SortedBy(r, Fecha, false)
    ensures multiset(r) <= multiset(rows)
    ensures forall e :: e in r <==> e in rows && IsPast(e, now)
  {
    SortBy(Filter(rows, e => IsPast(e, now)), Fecha, false)
  }

  /** At one instant no row is both upcoming and past. */
  lemma UpcomingPastDisjoint(rows: seq<Event>, now: int)
    ensures forall e :: e in UpcomingRows(rows, now) ==> e !in PastRows(rows, now)
  {
  }

  /** The two local queries need not cover the table: a future event that is
      under way is in neither. */
  lemma UpcomingPastNotCovering(now: int)
    ensures var e := DefaultEvent(now + 1).(estado := EnCurso);
      e !in UpcomingRows([e], now) && e !in PastRows([e], now)
  {
  }

  /** The Room-generated implementation of EventDao over the events table. */
  class EventDao {
    var rows: map<string, Event>

    predicate Valid()
      reads this
    {
      KeyedById(rows)
    }

    constructor()
      ensures rows == map[] && Valid()
    {
      rows := map[];
    }

    /** insertEvent: exactly one row under the event's id, equal to the event. */
    method InsertEvent(e: Event)
      modifies this
      ensures rows == Upsert(old(rows), e)
      ensures old(Valid()) ==> Valid()
    {
      rows := rows[e.id := e];
    }

    method InsertEvents(es: seq<Event>)
      modifies this
      ensures rows == UpsertAll(old(rows), es)
      ensures old(Valid()) ==> Valid()
    {
      for i := 0 to |es|
        invariant rows == UpsertAll(old(rows), es[..i])
      {
        assert es[..i + 1][..i] == es[..i];
        InsertEvent(es[i]);
      }
      assert es[..|es|] == es;
    }

    method UpdateEvent(e: Event)
      modifies this
      ensures rows == UpdateRow(old(rows), e)
      ensures old(Valid()) ==> Valid()
    {
      if e.id in rows {
        rows := rows[e.id := e];
      }
    }

    /** @Delete removes the row whose primary key is the entity's id. */
    method DeleteEvent(e: Event)
      modifies this
      ensures rows == DeleteRow(old(rows), e.id)
      ensures old(Valid()) ==> Valid()
    {
      rows := rows - {e.id};
    }

    method DeleteEventById(id: string)
      modifies this
      ensures rows == DeleteRow(old(rows), id)
      ensures old(Valid()) ==> Valid()
    {
      rows := rows - {id};
    }

    method DeleteAllEvents()
      modifies this
      ensures rows == map[]
      ensures old(Valid()) ==> Valid()
    {
      rows := map[];
    }

    method GetEventById(id: string) returns (r: Option<Event>)
      ensures r.Some? <==> id in rows
      ensures r.Some? ==> r.value == rows[id]
      ensures Valid() && r.Some? ==> r.value.id == id
    {
      if id in rows {
        r := Some(rows[id]);
      } else {
        r := None;
      }
    }

    /** A scan of the table: every row once, in storage order. */
    method Scan() returns (vs: seq<Event>)
      ensures forall e :: e in vs <==> e in rows.Values
      ensures |vs| == |rows|
    {
      var ks := KeysOf(rows);
      vs := ValuesAlong(rows, ks);
      ValuesAlongCovers(rows, ks);
    }

    method GetAllEvents() returns (r: seq<Event>)
      ensures SortedBy(r, Fecha, false)
      ensures forall e :: e in r <==> e in rows.Values
      ensures |r| == |rows|
    {
      var vs := Scan();
      r := AllRows(vs);
      assert |multiset(r)| == |multiset(vs)|;
    }

    method GetEventsByEstado(estado: EstadoEvento) returns (r: seq<Event>)
      ensures SortedBy(r, Fecha, true)
      ensures forall e :: e in r <==> e in rows.Values && e.estado == estado
    {
      var vs := Scan();
      r := RowsByEstado(vs, estado);
    }

    method GetEventsByOrganizador(organizadorId: string) returns (r: seq<Event>)
      ensures SortedBy(r, Fecha, false)
      ensures forall e :: e in r <==> e in rows.Values && e.organizadorId == organizadorId
    {
      var vs := Scan();
      r := RowsByOrganizador(vs, organizadorId);
    }

    method GetProximosEventos(now: int) returns (r: seq<Event>)
      ensures SortedBy(r, Fecha, true)
      ensures forall e :: e in r <==> e in rows.Values && IsUpcoming(e, now)
    {
      var vs := Scan();
      r := UpcomingRows(vs, now);
    }

    method GetEventosPasados(now: int) returns (r: seq<Event>)
      ensures SortedBy(r, Fecha, false)
      ensures forall e :: e in r <==> e in rows.Values && IsPast(e, now)
    {
      var vs := Scan();
      r := PastRows(vs, now);
    }
  }
}
