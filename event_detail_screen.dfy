/** EventDetailScreen: which actions the detail screen offers for the shown event and
    the signed-in user, the comment dialog's rating and submit rules, and the comment
    the screen hands to EventViewModel.addComment. */
module EventDetailScreen {
  import opened Common
  import opened Model
  import CommentTable
  import opened EventRepo
  import opened EventVM

  /** The attendance button's two faces: "Confirmar Asistencia" or, once confirmed,
      "Asistencia Confirmada", which cancels. */
  datatype AttendanceButton = ConfirmAttendance | CancelAttendance

  /** What the detail body offers around a loaded event. */
  datatype DetailControls = DetailControls(
    organizerActions: bool,              // statistics, edit and delete in the top bar
    attendance: Option<AttendanceButton>,
    finishedNotice: bool,                // "Este evento ya finalizó"
    commentButton: bool                  // "Dejar Comentario"
  )

  /** The controls for event `e`, the signed-in user `uid`, at instant `now`. */
  function Controls(e: Event, uid: Option<string>, now: int): DetailControls {
    var attendance :=
      if !IsOrganizador(e, uid) && !HasEventPassed(e, now) then
        Some(if HasConfirmedAttendance(e, uid) then CancelAttendance else ConfirmAttendance)
      else None;
    DetailControls(IsOrganizador(e, uid), attendance,
                   !IsOrganizador(e, uid) && HasEventPassed(e, now),
                   HasConfirmedAttendance(e, uid) || IsOrganizador(e, uid))
  }

  /** The organizer sees the organizer actions and neither the attendance button nor
      the notice; anybody else sees exactly one of the attendance button and the
      notice, the button cancelling exactly when attendance is confirmed. */
  lemma AttendanceControls(e: Event, uid: Option<string>, now: int)
    ensures var c := Controls(e, uid, now);
      && (c.organizerActions <==> uid.Some? && e.organizadorId == uid.value)
      && (c.organizerActions ==> c.attendance.None? && !c.finishedNotice)
      && (!c.organizerActions ==> (c.attendance.Some? <==> !c.finishedNotice))
      && (c.finishedNotice <==> !c.organizerActions && e.fecha < now)
      && (c.attendance == Some(CancelAttendance) <==> !c.organizerActions && e.fecha >= now && uid.Some? && uid.value in e.asistentes)
  {
  }

  /** Signed out, the screen offers the confirm button for an upcoming event, and
      neither the organizer actions nor the comment button. */
  lemma SignedOutControls(e: Event, now: int)
    ensures var c := Controls(e, None, now);
      && !c.organizerActions && !c.commentButton
      && (e.fecha >= now ==> c.attendance == Some(ConfirmAttendance))
  {
  }

  /** The comment button does not wait for the event to pass: the organizer always has
      it, and an attendee has it before and after the event, even once the attendance
      button is gone. */
  lemma CommentButtonIgnoresDate(e: Event, u: string, now: int)
    ensures e.organizadorId == u ==> Controls(e, Some(u), now).commentButton
    ensures u in e.asistentes ==> Controls(e, Some(u), now).commentButton
    ensures (u in e.asistentes && e.organizadorId != u && e.fecha < now ==>
      Controls(e, Some(u), now).attendance.None?)
  {
  }

  /** After a successful confirmation and the reload that follows it, the detail
      screen offers the comment button, and the cancel button while the event is
      still ahead. */
  lemma ConfirmUnlocksComment(s: Stores, u: string, eid: string, before: EventUiState, after: EventUiState,
                              commentsError: Option<string>, now: int)
    requires Keyed(s)
    requires ConfirmSpec(s, Some(u), eid).result.Success?
    requires var o := ConfirmSpec(s, Some(u), eid).after;
      LoadedEvent(before, after, eid, o.events, o.comments, commentsError)
    ensures after.eventoActual.Some?
    ensures Controls(after.eventoActual.value, Some(u), now).commentButton
    ensures (after.eventoActual.value.organizadorId != u && after.eventoActual.value.fecha >= now ==>
      Controls(after.eventoActual.value, Some(u), now).attendance == Some(CancelAttendance))
  {
    ConfirmShowsAttendance(s, u, eid, before, after, commentsError);
  }

  // ---------------------------------------------------------------------------
  // The comment dialog

  class CommentDialog {
    var texto: string
    var calificacion: int

    /** The rating is always one to five stars. */
    predicate Valid()
      reads this
    {
      IsStarRating(calificacion)
    }

    /** A fresh dialog: no text, five stars. */
    constructor()
      ensures texto == "" && calificacion == 5
      ensures Valid()
    {
      texto, calificacion := "", 5;
    }

    /** Tapping one of the five star buttons. */
    method PickStar(star: int)
      requires 1 <= star <= 5
      modifies this`calificacion
      ensures calificacion == star && Valid()
    {
      calificacion := star;
    }

    method OnTextChange(text: string)
      modifies this`texto
      ensures texto == text
    {
      texto := text;
    }

    /** "Publicar": nothing for blank text; otherwise the trimmed text, which is not
        empty, and the chosen rating, which is a star rating. */
    method Publish() returns (r: Option<(string, int)>)
      requires Valid()
      ensures r.Some? <==> !IsBlank(texto)
      ensures r.Some? ==> r.value == (Trim(texto), calificacion)
      ensures r.Some? ==> r.value.0 != [] && IsStarRating(r.value.1)
    {
      if IsBlank(texto) {
        r := None;
      } else {
        BlankIffTrimEmpty(texto);
        r := Some((Trim(texto), calificacion));
      }
    }
  }

  /** The comment built from the dialog's output: the shown event's id, the signed-in
      user's id, name and photo, the text and the rating; id, date and flag default.
      Without a shown event or a signed-in user the dialog is not shown at all. */
  function DialogComment(event: Option<Event>, currentUser: Option<User>, texto: string, calificacion: int, now: int)
    : (r: Option<Comment>)
    ensures r.Some? <==> event.Some? && currentUser.Some?
    ensures r.Some? ==> && r.value.eventoId == event.value.id && r.value.userId == currentUser.value.id
                        && r.value.userName == currentUser.value.nombre
                        && r.value.userPhotoUrl == currentUser.value.photoUrl
                        && r.value.texto == texto && r.value.calificacion == calificacion
                        && r.value.id == "" && !r.value.editado
  {
    if event.Some? && currentUser.Some? then
      Some(DefaultComment(now).(eventoId := event.value.id, userId := currentUser.value.id,
                                userName := currentUser.value.nombre, userPhotoUrl := currentUser.value.photoUrl,
                                texto := texto, calificacion := calificacion))
    else None
  }

  /** When every comment already on the event came from the dialog, adding one more
      from it keeps the event's stored mean rating between one and five stars. */
  lemma DialogKeepsMeanInStars(s: Stores, c: Comment, newId: string, now: int)
    requires c.eventoId in s.events && IsStarRating(c.calificacion)
    requires forall k :: k in s.comments && s.comments[k].eventoId == c.eventoId ==> IsStarRating(s.comments[k].calificacion)
    ensures var o := AddCommentSpec(s, c, newId, now);
      1.0 <= o.after.events[c.eventoId].calificacionPromedio <= 5.0
  {
    AddCommentRating(s, c, newId, now);
    var m := s.comments[newId := c.(id := newId, fecha := now)];
    assert AddCommentSpec(s, c, newId, now).after.comments == m;
    CommentTable.MeanWithinStars(m, c.eventoId);
  }
}
