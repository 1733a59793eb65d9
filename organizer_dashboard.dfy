/** OrganizerDashboardScreen: the rating and occupancy cards, the recent-comments
    preview, and the attendee list gathered one profile read at a time. */
module OrganizerDashboard {
  import opened Common
  import opened Seqs
  import opened Model
  import opened EventForm
  import CommentTable
  import opened EventRepo
  import Remote

  // ---------------------------------------------------------------------------
  // Statistic cards

  /** The rating card: "N/A", or the stored mean rating. */
  datatype RatingCard = NoRating | MeanRating(mean: real)

  function RatingCardOf(e: Event): (r: RatingCard)
    ensures r.NoRating? <==> e.totalCalificaciones <= 0
    ensures r.MeanRating? ==> r.mean == e.calificacionPromedio
  {
    if e.totalCalificaciones > 0 then MeanRating(e.calificacionPromedio) else NoRating
  }

  /** After a comment on an existing event, the card shows a rating, and it is the
      mean of all the event's remote comments. */
  lemma RatedAfterComment(s: Stores, c: Comment, newId: string, now: int)
    requires c.eventoId in s.events
    ensures var o := AddCommentSpec(s, c, newId, now);
      var card := RatingCardOf(o.after.events[c.eventoId]);
      card.MeanRating? && CommentTable.MeanFor(o.after.comments, c.eventoId) == Some(card.mean)
  {
    AddCommentRating(s, c, newId, now);
    var o := AddCommentSpec(s, c, newId, now);
    CommentTable.CountForPresent(o.after.comments, newId, c.eventoId);
  }

  /** Int division as Kotlin performs it: the quotient truncated toward zero. */
  function TruncDiv(a: int, b: int): (q: int)
    requires b != 0
    ensures a >= 0 && b > 0 ==> q == a / b
  {
    var m := Abs(a) / Abs(b);
    if (a < 0) == (b < 0) then m else -m
  }

  function Abs(n: int): nat {
    if n < 0 then -n else n
  }

  /** The occupancy card: "N/A" without a capacity, the truncated percentage of the
      capacity taken by the attendees, or the division by zero a zero capacity
      raises. */
  datatype Occupancy = NoCapacity | Percent(p: int) | DivisionByZero

  function OccupancyOf(e: Event): (r: Occupancy)
    ensures r.NoCapacity? <==> e.capacidadMaxima.None?
    ensures r.DivisionByZero? <==> e.capacidadMaxima == Some(0)
    ensures r.Percent? ==> r.p == TruncDiv(|e.asistentes| * 100, e.capacidadMaxima.value)
  {
    match e.capacidadMaxima
    case None => NoCapacity
    case Some(cap) => if cap == 0 then DivisionByZero else Percent(TruncDiv(|e.asistentes| * 100, cap))
  }

  /** With a positive capacity the percentage is the whole part of attendees per
      hundred places: it reaches 100 exactly when the event is full. */
  lemma OccupancyMeasuresFill(e: Event)
    requires e.capacidadMaxima.Some? && e.capacidadMaxima.value > 0
    ensures var cap, n := e.capacidadMaxima.value, |e.asistentes|;
      && OccupancyOf(e).Percent?
      && OccupancyOf(e).p * cap <= n * 100 < (OccupancyOf(e).p + 1) * cap
      && (OccupancyOf(e).p >= 100 <==> n >= cap)
  {
    var cap, n := e.capacidadMaxima.value, |e.asistentes|;
    var p := OccupancyOf(e).p;
    assert p == (n * 100) / cap;
    QuotientBounds(n * 100, cap);
    if n >= cap {
      ScaleLe(cap, n, 100);
      ScaleLtInverse(100, p + 1, cap);
    }
    if p >= 100 {
      ScaleLe(100, p, cap);
      ScaleLeInverse(cap, n, 100);
    }
  }

  /** The floor quotient brackets the dividend. */
  lemma QuotientBounds(a: nat, c: nat)
    requires c > 0
    ensures (a / c) * c <= a < (a / c + 1) * c
  {
    var q, r := a / c, a % c;
    assert a == q * c + r && r < c;
    assert (q + 1) * c == q * c + c;
  }

  lemma ScaleLe(a: int, b: int, c: nat)
    requires a <= b
    ensures a * c <= b * c
  {
  }

  lemma ScaleLtInverse(a: int, b: int, c: int)
    requires c > 0 && a * c < b * c
    ensures a < b
  {
    if a >= b {
      ScaleLe(b, a, c);
    }
  }

  lemma ScaleLt(a: int, b: int, c: int)
    requires a < b && c > 0
    ensures a * c < b * c
  {
  }

  lemma ScaleLeInverse(a: int, b: int, c: int)
    requires c > 0 && a * c <= b * c
    ensures a <= b
  {
    if a > b {
      ScaleLt(b, a, c);
    }
  }

  /** A capacity field holding "0" passes both forms' input filter and parses to a
      capacity of zero, so the dashboard of such an event divides by zero. */
  lemma ZeroCapacityDividesByZero(e: Event)
    ensures AcceptsCapacity("0") && ToIntOrNull("0") == Some(0)
    ensures OccupancyOf(e.(capacidadMaxima := ToIntOrNull("0"))).DivisionByZero?
  {
    assert IsDigit("0"[0]);
    CapacityParses("0");
    assert DigitsValue("0") == DigitValue('0') by {
      assert "0"[..0] == [];
    }
  }

  // ---------------------------------------------------------------------------
  // Recent comments

  /** The comments section: hidden without comments; otherwise the first three as
      preview, and "Ver todos los comentarios (n)" when there are more. */
  datatype CommentsSection = Hidden | Section(preview: seq<Comment>, seeAll: Option<nat>)

  function CommentsSectionOf(comentarios: seq<Comment>): (r: CommentsSection)
    ensures r.Hidden? <==> comentarios == []
    ensures r.Section? ==> r.preview <= comentarios && |r.preview| == if |comentarios| < 3 then |comentarios| else 3
    ensures r.Section? ==> (r.seeAll.Some? <==> |comentarios| > 3)
    ensures r.Section? && r.seeAll.Some? ==> r.seeAll.value == |comentarios|
  {
    if comentarios == [] then Hidden
    else Section(Take(comentarios, 3), if |comentarios| > 3 then Some(|comentarios|) else None)
  }

  /** Nothing is hidden silently: every comment is in the preview, or the button to
      see them all is offered. */
  lemma NoCommentHiddenSilently(comentarios: seq<Comment>, c: Comment)
    requires c in comentarios
    ensures var r := CommentsSectionOf(comentarios);
      r.Section? && (c in r.preview || r.seeAll.Some?)
  {
    var r := CommentsSectionOf(comentarios);
    if |comentarios| <= 3 {
      assert r.preview == comentarios;
    }
  }

  // ---------------------------------------------------------------------------
  // Attendees

  /** The profiles of the ids that have one, in id order; ids without a profile are
      skipped. */
  function Gathered(users: map<string, User>, ids: seq<string>): (r: seq<User>)
    ensures |r| <= |ids|
  {
    if ids == [] then []
    else
      var last := ids[|ids| - 1];
      Gathered(users, ids[..|ids| - 1]) + (if last in users then [users[last]] else [])
  }

  /** A user is gathered exactly when it is the profile stored under one of the ids. */
  lemma {:induction false} GatheredMembers(users: map<string, User>, ids: seq<string>)
    ensures forall u :: u in Gathered(users, ids) <==> exists id :: id in ids && id in users && users[id] == u
  {
    if ids != [] {
      var init, last := ids[..|ids| - 1], ids[|ids| - 1];
      GatheredMembers(users, init);
      assert ids == init + [last];
      forall u
        ensures u in Gathered(users, ids) <==> exists id :: id in ids && id in users && users[id] == u
      {
        if u in Gathered(users, init) {
          var id :| id in init && id in users && users[id] == u;
          assert id in ids;
        }
      }
    }
  }

  /** Every id has a profile exactly when nobody is skipped. */
  lemma {:induction false} GatheredAll(users: map<string, User>, ids: seq<string>)
    ensures |Gathered(users, ids)| == |ids| <==> forall id :: id in ids ==> id in users
  {
    if ids != [] {
      var init, last := ids[..|ids| - 1], ids[|ids| - 1];
      GatheredAll(users, init);
      assert ids == init + [last];
      if last !in users {
        assert |Gathered(users, ids)| < |ids|;
      }
    }
  }

  /** What an interrupted gathering keeps is a prefix of the full list. */
  lemma {:induction false} GatheredPrefix(users: map<string, User>, ids: seq<string>, k: nat)
    requires k <= |ids|
    ensures Gathered(users, ids[..k]) <= Gathered(users, ids)
    decreases |ids| - k
  {
    if k < |ids| {
      var init := ids[..|ids| - 1];
      assert init[..k] == ids[..k];
      GatheredPrefix(users, init, k);
    } else {
      assert ids[..k] == ids;
    }
  }

  /** loadAttendees: read the profiles one id at a time; the read of id number
      `failAt`, when there is one, throws, which ends the loop and keeps what was
      gathered before it. */
  method LoadAttendees(store: Remote.Firestore, attendeeIds: seq<string>, failAt: Option<nat>) returns (r: seq<User>)
    ensures var stop := if failAt.Some? && failAt.value < |attendeeIds| then failAt.value else |attendeeIds|;
      r == Gathered(store.users, attendeeIds[..stop])
  {
    var stop := if failAt.Some? && failAt.value < |attendeeIds| then failAt.value else |attendeeIds|;
    r := [];
    var i := 0;
    while i < stop
      invariant 0 <= i <= stop
      invariant r == Gathered(store.users, attendeeIds[..i])
    {
      var doc := store.GetUser(attendeeIds[i]);
      assert attendeeIds[..i + 1][..i] == attendeeIds[..i];
      if doc.Some? {
        r := r + [doc.value];
      }
      i := i + 1;
    }
  }

  /** The attendee list shown is the start of the full one, and with no failed read
      it lists the profile of every confirmed attendee that has one. */
  lemma LoadedAttendeesArePrefix(users: map<string, User>, attendeeIds: seq<string>, stop: nat)
    requires stop <= |attendeeIds|
    ensures Gathered(users, attendeeIds[..stop]) <= Gathered(users, attendeeIds)
    ensures forall u :: u in Gathered(users, attendeeIds[..stop]) ==> exists id :: id in attendeeIds && id in users && users[id] == u
  {
    GatheredPrefix(users, attendeeIds, stop);
    GatheredMembers(users, attendeeIds[..stop]);
    forall u | u in Gathered(users, attendeeIds[..stop])
      ensures exists id :: id in attendeeIds && id in users && users[id] == u
    {
      var id :| id in attendeeIds[..stop] && id in users && users[id] == u;
      assert id in attendeeIds;
    }
  }
}
