/** NotificationHelper: the three notices the app posts (event reminder, new
    attendee, new comment), the permission guard in front of each, and the rule
    that decides whether a reminder goes out now. A notice is the event it opens,
    its title and its text; handing it to the platform is not modelled. */
module Notifications {
  import opened Common

  datatype Notice = Notice(eventId: string, title: string, text: string)

  /** One day and one hour, in milliseconds. */
  const DayMillis: int := 24 * 60 * 60 * 1000
  const HourMillis: int := 60 * 60 * 1000

  const ReminderTitle: string := "\U{23F0} Recordatorio de Evento"
  const AttendeeTitle: string := "\U{1F389} Nuevo asistente"
  const CommentTitle: string := "\U{1F4AC} Nuevo comentario"
  const Star: char := '\U{2B50}'

  /** The star string of a comment notice: `rating` stars and nothing else. */
  function Stars(rating: nat): (r: string)
    ensures |r| == rating
    ensures forall i :: 0 <= i < |r| ==> r[i] == Star
  {
    RepeatChar(Star, rating);
    Repeat([Star], rating)
  }

  /** sendEventReminderNotification: nothing without permission. */
  function ReminderNotice(permitted: bool, eventId: string, eventTitle: string, eventDate: string, eventTime: string): (r: Option<Notice>)
    ensures r.Some? <==> permitted
    ensures r.Some? ==> r.value.eventId == eventId && r.value.title == ReminderTitle
  {
    if !permitted then None
    else Some(Notice(eventId, ReminderTitle, eventTitle + " - " + eventDate + " a las " + eventTime))
  }

  /** sendNewAttendeeNotification: nothing without permission. */
  function AttendeeNotice(permitted: bool, eventId: string, eventTitle: string, attendeeName: string): (r: Option<Notice>)
    ensures r.Some? <==> permitted
    ensures r.Some? ==> r.value.eventId == eventId && r.value.title == AttendeeTitle
  {
    if !permitted then None
    else Some(Notice(eventId, AttendeeTitle, attendeeName + " confirmó asistencia a \"" + eventTitle + "\""))
  }

  /** sendNewCommentNotification: nothing without permission; String.repeat refuses
      a negative count, so a negative rating posts nothing either. The text ends with
      exactly `rating` stars. */
  function CommentNotice(permitted: bool, eventId: string, eventTitle: string, commenterName: string, rating: int): (r: Option<Notice>)
    ensures r.Some? <==> permitted && rating >= 0
    ensures r.Some? ==> r.value.eventId == eventId && r.value.title == CommentTitle
    ensures r.Some? ==> |r.value.text| >= rating
    ensures r.Some? ==> forall i :: |r.value.text| - rating <= i < |r.value.text| ==> r.value.text[i] == Star
  {
    if !permitted || rating < 0 then None
    else
      var stars := Stars(rating);
      var text := commenterName + " comentó en \"" + eventTitle + "\" " + stars;
      assert text[|text| - rating..] == stars;
      Some(Notice(eventId, CommentTitle, text))
  }

  /** The instant a reminder is meant for: one day before the event. */
  function ReminderInstant(eventTimestamp: int): int {
    eventTimestamp - DayMillis
  }

  /** scheduleEventReminder: the reminder goes out now only when its instant is still
      ahead but less than an hour away, that is when the event starts between one day
      and one day and an hour from now (both ends open). */
  function ScheduleEventReminder(permitted: bool, eventId: string, eventTitle: string, eventDate: string,
                                 eventTime: string, eventTimestamp: int, now: int): (r: Option<Notice>)
    ensures r.Some? <==> permitted && now + DayMillis < eventTimestamp < now + DayMillis + HourMillis
    ensures r.Some? ==> r == ReminderNotice(permitted, eventId, eventTitle, eventDate, eventTime)
  {
    var oneDayBefore := ReminderInstant(eventTimestamp);
    if oneDayBefore > now && oneDayBefore - now < HourMillis then
      ReminderNotice(permitted, eventId, eventTitle, eventDate, eventTime)
    else None
  }
}
