# EventCenter in Dafny

EventCenter is an Android app for publishing events, confirming attendance and
rating events with comments. This project models its core in Dafny and proves
properties of that model:

- **Records.** `Event`, `Comment` and `User`, plus the `EstadoEvento` and `CCLicense` enums.
- **Stores.** The remote document store holds the `events`, `users` and `comments`
  collections. The local Room tables mirror events and comments through `EventDao`
  and `CommentDao`.
- **Repositories.**
  - `EventRepository`: create, update and delete events, confirm and cancel
    attendance, add comments and refresh an event's rating.
  - `AuthRepository`: email and Google sign-in, and the get-or-create of the user's
    profile.
- **View models.** `EventViewModel` and `AuthViewModel`: the screen state each
  intent produces.
- **Screens.** The rules of the create, edit, register, detail, home and organizer
  dashboard screens:
  - the field checks and their error texts;
  - the event a form builds;
  - which actions the detail screen offers;
  - the category filter;
  - the rating, occupancy and comment cards;
  - the attendee list.
- **The rest.** The notices of `NotificationHelper` and the navigation routes.

## How it is modelled

- **Stores as maps.** The remote collections and local tables are maps keyed by
  document id. A query over a collection is a function of a snapshot of its
  documents, which may come in any order.
- **Operations as specification functions.** Each repository operation is first a
  function. It maps the state of both stores before the call to the result and the
  state after it (`CreateEventSpec`, `ConfirmSpec`, …).
- **The repository class.** `EventRepository` replays the source's sequence of
  remote and local writes. Each method is proved to reach exactly the state its
  function describes.
- **View models.** The view models are classes over their UI state. Each method is
  proved against the repository functions.
- **Screens.** Each form is a class whose fields are the screen's remembered state.
  Pure rules are functions.
- **Inputs.** Things the app reads from its environment become parameters:
  - the signed-in uid, and the session the authentication service holds when the
    repository is created;
  - the clock (`now`);
  - the ids the store generates (`newId`);
  - the identity provider's answer;
  - notification permission;
  - the outcome of each snapshot listener;
  - the platform's email pattern.

**Behaviour worth knowing:**

- `createEvent` overwrites only the id, `organizadorId` and `fechaCreacion` of the
  draft. It does not stamp the organizer's name; the screen already puts it there.
- The remote writes are not rolled back when a later step fails. A missing user
  profile makes createEvent, deleteEvent, confirmarAsistencia and
  cancelarAsistencia fail after their first writes. A missing event document makes
  addComment fail after the comment is stored.
- Deleting an event does not check that the caller organised it.

## Model

| member | source | states |
|---|---|---|
| Model.EstadosAreFour | app/src/main/java/com/ch220048/eventcenter/data/model/Event.kt:33-38 | the lifecycle enum has exactly four distinct values |
| Model.DefaultEvent | app/src/main/java/com/ch220048/eventcenter/data/model/Event.kt:10-31 | a default event has empty id, license "CC BY", category "General", no attendees, zero rating and count, state PROXIMO, no capacity, and date and creation time taken from the clock |
| Model.DefaultComment | app/src/main/java/com/ch220048/eventcenter/data/model/Comment.kt:10-21 | a default comment has empty id, no photo, is not edited, is dated now and has rating 0 |
| Model.DefaultRatingOutOfRange | app/src/main/java/com/ch220048/eventcenter/data/model/Comment.kt:18 | the default rating 0 lies outside the documented 1-5 star range |
| Model.NewUser | app/src/main/java/com/ch220048/eventcenter/data/model/User.kt:10-19 | a new profile carries the given id, name, email and photo, empty created and attended lists, and the clock's registration time |
| CCLicenses.Find | app/src/main/java/com/ch220048/eventcenter/data/model/CCLicense.kt:48-50 | the lookup returns a licence from the list with the wanted code, or none when no licence in the list has it |
| CCLicenses.FromCodigo | app/src/main/java/com/ch220048/eventcenter/data/model/CCLicense.kt:48-50 | fromCodigo returns the licence with that code, or CC BY when no licence has it |
| CCLicenses.CodesDistinct | app/src/main/java/com/ch220048/eventcenter/data/model/CCLicense.kt:4-45 | there are six licences, every licence is listed, and their codes are pairwise distinct |
| CCLicenses.FromCodigoRoundTrip | app/src/main/java/com/ch220048/eventcenter/data/model/CCLicense.kt:48-50 | looking a licence up by its own code gives that licence back |
| CCLicenses.FromCodigoFallback | app/src/main/java/com/ch220048/eventcenter/data/model/CCLicense.kt:49 | an unknown code yields CC BY |
| Routes.RoutePrefix | app/src/main/java/com/ch220048/eventcenter/navigation/Screen.kt:13-22 | each parameterised template is a brace-free prefix followed by "{eventId}" |
| Routes.CreateRoute | app/src/main/java/com/ch220048/eventcenter/navigation/Screen.kt:14 | createRoute equals the template with the event id substituted for "{eventId}" |
| Routes.ScreenOf | app/src/main/java/com/ch220048/eventcenter/navigation/Screen.kt:6-32 | a route string that names a screen names one whose template it is |
| Routes.ScreenOfRoute | app/src/main/java/com/ch220048/eventcenter/navigation/Screen.kt:6-32 | every screen's template leads back to that screen |
| Routes.RoutesDistinct | app/src/main/java/com/ch220048/eventcenter/navigation/Screen.kt:8-31 | distinct screens have distinct route templates |
| Routes.ScreensAreEleven | app/src/main/java/com/ch220048/eventcenter/navigation/Screen.kt:8-31 | the eleven destinations have pairwise distinct routes |
| Common.ToIntOrNull | app/src/main/java/com/ch220048/eventcenter/ui/events/CreateEventScreen.kt:411 | toIntOrNull yields only values within Int's range |
| Common.IntToStringRoundTrip | app/src/main/java/com/ch220048/eventcenter/ui/events/EditEventScreen.kt:66 | parsing the decimal text of an Int gives the Int back |
| Common.BlankIffTrimEmpty | app/src/main/java/com/ch220048/eventcenter/ui/events/EventDetailScreen.kt:730-731 | a text is blank exactly when trimming leaves it empty |
| Common.TrimIdempotent | app/src/main/java/com/ch220048/eventcenter/ui/events/CreateEventScreen.kt:403-407 | trimming a trimmed text changes nothing |
| Common.Utf16Length | app/src/main/java/com/ch220048/eventcenter/ui/events/CreateEventScreen.kt:69 | `String.length` counts UTF-16 code units: at least one and at most two per character |
| Common.Utf16LengthOfBmp | app/src/main/java/com/ch220048/eventcenter/ui/events/CreateEventScreen.kt:69 | text within the Basic Multilingual Plane has exactly one code unit per character |
| EventTable.Upsert | app/src/main/java/com/ch220048/eventcenter/data/local/EventDao.kt:15-16 | insert with REPLACE stores the event under its id and leaves every other row |
| EventTable.UpsertAll | app/src/main/java/com/ch220048/eventcenter/data/local/EventDao.kt:18-19 | inserting a list adds exactly the list's ids and keeps the rows it does not name |
| EventTable.UpsertAllLastWins | app/src/main/java/com/ch220048/eventcenter/data/local/EventDao.kt:18-19 | among events of the list with one id, the last one is stored |
| EventTable.UpdateRow | app/src/main/java/com/ch220048/eventcenter/data/local/EventDao.kt:21-22 | update replaces an existing row and never adds one |
| EventTable.DeleteRow | app/src/main/java/com/ch220048/eventcenter/data/local/EventDao.kt:24-28 | deleting removes that id and keeps every other row |
| EventTable.AllRows | app/src/main/java/com/ch220048/eventcenter/data/local/EventDao.kt:33-34 | all rows, newest date first, a permutation of the table |
| EventTable.RowsByEstado | app/src/main/java/com/ch220048/eventcenter/data/local/EventDao.kt:36-37 | exactly the rows in that state, soonest first |
| EventTable.RowsByOrganizador | app/src/main/java/com/ch220048/eventcenter/data/local/EventDao.kt:39-40 | exactly the organizer's rows, newest first |
| EventTable.UpcomingRows | app/src/main/java/com/ch220048/eventcenter/data/local/EventDao.kt:42-46 | exactly the rows dated at or after now in state PROXIMO, soonest first |
| EventTable.PastRows | app/src/main/java/com/ch220048/eventcenter/data/local/EventDao.kt:48-52 | exactly the rows dated before now or FINALIZADO, newest first |
| EventTable.UpcomingPastDisjoint | app/src/main/java/com/ch220048/eventcenter/data/local/EventDao.kt:42-52 | no row is both upcoming and past |
| EventTable.UpcomingPastNotCovering | app/src/main/java/com/ch220048/eventcenter/data/local/EventDao.kt:42-52 | a future event that is EN_CURSO is in neither list |
| EventTable.EventDao.InsertEvent | app/src/main/java/com/ch220048/eventcenter/data/local/EventDao.kt:15-16 | the table becomes Upsert of the old table; every row stays under its own id |
| EventTable.EventDao.InsertEvents | app/src/main/java/com/ch220048/eventcenter/data/local/EventDao.kt:18-19 | the loop leaves the table as UpsertAll of the old table; every row stays under its own id |
| EventTable.EventDao.UpdateEvent | app/src/main/java/com/ch220048/eventcenter/data/local/EventDao.kt:21-22 | the table becomes UpdateRow of the old table; every row stays under its own id |
| EventTable.EventDao.DeleteEvent | app/src/main/java/com/ch220048/eventcenter/data/local/EventDao.kt:24-25 | the table becomes DeleteRow of the event's id; every row stays under its own id |
| EventTable.EventDao.DeleteEventById | app/src/main/java/com/ch220048/eventcenter/data/local/EventDao.kt:27-28 | the table becomes DeleteRow of the id; every row stays under its own id |
| EventTable.EventDao.DeleteAllEvents | app/src/main/java/com/ch220048/eventcenter/data/local/EventDao.kt:54-55 | the table is empty; every row stays under its own id |
| EventTable.EventDao.GetEventById | app/src/main/java/com/ch220048/eventcenter/data/local/EventDao.kt:30-31 | the row under the id, or none exactly when there is no such row |
| EventTable.EventDao.GetAllEvents | app/src/main/java/com/ch220048/eventcenter/data/local/EventDao.kt:33-34 | every row once, newest first |
| EventTable.EventDao.GetEventsByEstado | app/src/main/java/com/ch220048/eventcenter/data/local/EventDao.kt:36-37 | exactly the rows in the state, soonest first |
| EventTable.EventDao.GetEventsByOrganizador | app/src/main/java/com/ch220048/eventcenter/data/local/EventDao.kt:39-40 | exactly the organizer's rows, newest first |
| EventTable.EventDao.GetProximosEventos | app/src/main/java/com/ch220048/eventcenter/data/local/EventDao.kt:42-46 | exactly the upcoming rows, soonest first |
| EventTable.EventDao.GetEventosPasados | app/src/main/java/com/ch220048/eventcenter/data/local/EventDao.kt:48-52 | exactly the past rows, newest first |
| CommentTable.Average | app/src/main/java/com/ch220048/eventcenter/data/repository/EventRepository.kt:377 | the average of a list of ratings is absent exactly for the empty list |
| CommentTable.ScanAggregates | app/src/main/java/com/ch220048/eventcenter/data/local/CommentDao.kt:34-38 | counting and averaging a scan of the table gives the order-free count and mean of the event's comments |
| CommentTable.CountForAdd | app/src/main/java/com/ch220048/eventcenter/data/repository/EventRepository.kt:319-340 | a new comment adds one to its event's count and its rating to the sum |
| CommentTable.CountForPresent | app/src/main/java/com/ch220048/eventcenter/data/repository/EventRepository.kt:368-390 | an event with a stored comment has a count of at least one and a mean |
| CommentTable.StarSumBounds | app/src/main/java/com/ch220048/eventcenter/data/model/Comment.kt:18 | with star ratings only, the rating sum lies between the count and five times the count |
| CommentTable.MeanWithinStars | app/src/main/java/com/ch220048/eventcenter/data/model/Comment.kt:18 | with star ratings only, an event's mean rating lies between 1 and 5 |
| CommentTable.Upsert | app/src/main/java/com/ch220048/eventcenter/data/local/CommentDao.kt:13-14 | insert with REPLACE stores the comment under its id and leaves every other row |
| CommentTable.UpsertAll | app/src/main/java/com/ch220048/eventcenter/data/local/CommentDao.kt:16-17 | inserting a list adds exactly its ids and keeps the rows it does not name |
| CommentTable.UpdateRow | app/src/main/java/com/ch220048/eventcenter/data/local/CommentDao.kt:19-20 | update replaces an existing row and never adds one |
| CommentTable.DeleteRow | app/src/main/java/com/ch220048/eventcenter/data/local/CommentDao.kt:22-26 | deleting removes that id and keeps every other row |
| CommentTable.DeleteForEvento | app/src/main/java/com/ch220048/eventcenter/data/local/CommentDao.kt:40-41 | exactly the rows of other events remain, unchanged |
| CommentTable.DeleteForEventoCount | app/src/main/java/com/ch220048/eventcenter/data/local/CommentDao.kt:40-41 | afterwards the event has count zero and no mean |
| CommentTable.RowsByEvento | app/src/main/java/com/ch220048/eventcenter/data/local/CommentDao.kt:28-29 | exactly the event's comments, newest first, drawn from the rows |
| CommentTable.RowsByUser | app/src/main/java/com/ch220048/eventcenter/data/local/CommentDao.kt:31-32 | exactly the user's comments, newest first, drawn from the rows |
| CommentTable.CommentDao.InsertComment | app/src/main/java/com/ch220048/eventcenter/data/local/CommentDao.kt:13-14 | the table becomes Upsert of the old table; every row stays under its own id |
| CommentTable.CommentDao.InsertComments | app/src/main/java/com/ch220048/eventcenter/data/local/CommentDao.kt:16-17 | the loop leaves the table as UpsertAll of the old table; every row stays under its own id |
| CommentTable.CommentDao.UpdateComment | app/src/main/java/com/ch220048/eventcenter/data/local/CommentDao.kt:19-20 | the table becomes UpdateRow of the old table; every row stays under its own id |
| CommentTable.CommentDao.DeleteComment | app/src/main/java/com/ch220048/eventcenter/data/local/CommentDao.kt:22-23 | the table becomes DeleteRow of the comment's id; every row stays under its own id |
| CommentTable.CommentDao.DeleteCommentById | app/src/main/java/com/ch220048/eventcenter/data/local/CommentDao.kt:25-26 | the table becomes DeleteRow of the id; every row stays under its own id |
| CommentTable.CommentDao.DeleteCommentsByEvento | app/src/main/java/com/ch220048/eventcenter/data/local/CommentDao.kt:40-41 | the table becomes DeleteForEvento of the old table; every row stays under its own id |
| CommentTable.CommentDao.DeleteAllComments | app/src/main/java/com/ch220048/eventcenter/data/local/CommentDao.kt:43-44 | the table is empty; every row stays under its own id |
| CommentTable.CommentDao.GetCommentsByEvento | app/src/main/java/com/ch220048/eventcenter/data/local/CommentDao.kt:28-29 | exactly the event's comments, newest first, as many as its count |
| CommentTable.CommentDao.GetCommentsByUser | app/src/main/java/com/ch220048/eventcenter/data/local/CommentDao.kt:31-32 | exactly the user's comments, newest first |
| CommentTable.CommentDao.GetCalificacionPromedio | app/src/main/java/com/ch220048/eventcenter/data/local/CommentDao.kt:34-35 | AVG is the event's mean rating, NULL when it has no comments |
| CommentTable.CommentDao.GetTotalComentarios | app/src/main/java/com/ch220048/eventcenter/data/local/CommentDao.kt:37-38 | COUNT is the number of the event's comments |
| Remote.Firestore.GetEvent | app/src/main/java/com/ch220048/eventcenter/data/repository/EventRepository.kt:227-236 | a document read returns the stored event or nothing |
| Remote.Firestore.QueryCommentsByEvento | app/src/main/java/com/ch220048/eventcenter/data/repository/EventRepository.kt:369-374 | the query returns exactly the event's comments; their count and average are the event's count and mean |
| Remote.Firestore.UpdateRating | app/src/main/java/com/ch220048/eventcenter/data/repository/EventRepository.kt:380-388 | update fails on a missing document and otherwise changes only the two rating fields |
| EventRepo.UpdateEventSpec | app/src/main/java/com/ch220048/eventcenter/data/repository/EventRepository.kt:70-83 | updateEvent stores the event remotely, touches no user or comment, and keeps every record under its id |
| EventRepo.Stamp | app/src/main/java/com/ch220048/eventcenter/data/repository/EventRepository.kt:37-41 | the stored event is the draft with only id, organizer id and creation time replaced |
| EventRepo.AllEvents | app/src/main/java/com/ch220048/eventcenter/data/repository/EventRepository.kt:130-147 | every event of the snapshot, newest first |
| EventRepo.ProximosEventos | app/src/main/java/com/ch220048/eventcenter/data/repository/EventRepository.kt:152-172 | exactly the events dated at or after now, soonest first |
| EventRepo.EventosPasados | app/src/main/java/com/ch220048/eventcenter/data/repository/EventRepository.kt:177-197 | exactly the events dated before now, newest first |
| EventRepo.MisEventos | app/src/main/java/com/ch220048/eventcenter/data/repository/EventRepository.kt:202-222 | exactly the caller's events, or those with empty organizer when signed out, newest first |
| EventRepo.CommentsByEvento | app/src/main/java/com/ch220048/eventcenter/data/repository/EventRepository.kt:345-363 | exactly the event's comments, newest first |
| EventRepo.UpcomingPastPartition | app/src/main/java/com/ch220048/eventcenter/data/repository/EventRepository.kt:152-197 | together the upcoming and past lists hold every event exactly once |
| EventRepo.CreateEventSignedOut | app/src/main/java/com/ch220048/eventcenter/data/repository/EventRepository.kt:35 | createEvent without a user fails with "Usuario no autenticado" and writes nothing |
| EventRepo.CreateEventStores | app/src/main/java/com/ch220048/eventcenter/data/repository/EventRepository.kt:34-65 | createEvent stores the stamped draft remotely and locally, appends the id to eventosCreados and changes no other user or any comment |
| EventRepo.ConfirmMissingEvent | app/src/main/java/com/ch220048/eventcenter/data/repository/EventRepository.kt:246 | confirming for a missing event fails with "Evento no encontrado" and writes nothing |
| EventRepo.ConfirmIdempotent | app/src/main/java/com/ch220048/eventcenter/data/repository/EventRepository.kt:250 | a second confirmation succeeds and writes nothing |
| EventRepo.ConfirmKeepsDistinct | app/src/main/java/com/ch220048/eventcenter/data/repository/EventRepository.kt:250-254 | the attendee list stays duplicate-free and lists the user |
| EventRepo.ConfirmIgnoresCapacity | app/src/main/java/com/ch220048/eventcenter/data/repository/EventRepository.kt:244-283 | a full event still admits a new attendee |
| EventRepo.ConfirmAddsAttendee | app/src/main/java/com/ch220048/eventcenter/data/repository/EventRepository.kt:244-283 | confirming a user not yet attending appends them to the attendees and the event to their eventosAsistidos, and changes nothing else remote |
| EventRepo.CancelTakesAttendee | app/src/main/java/com/ch220048/eventcenter/data/repository/EventRepository.kt:291-314 | cancelling removes the first occurrence of the user from the attendees and of the event from their eventosAsistidos, and changes nothing else remote |
| EventRepo.ConfirmThenCancel | app/src/main/java/com/ch220048/eventcenter/data/repository/EventRepository.kt:244-314 | confirming then cancelling restores events, users and comments exactly |
| EventRepo.CancelRemovesOne | app/src/main/java/com/ch220048/eventcenter/data/repository/EventRepository.kt:296-299 | cancelling removes exactly one occurrence of the user from the attendees |
| EventRepo.DeleteEventCascades | app/src/main/java/com/ch220048/eventcenter/data/repository/EventRepository.kt:91-125 | deleteEvent removes the event and exactly its comments from both stores and keeps everything else |
| EventRepo.DeleteEventIgnoresOrganizer | app/src/main/java/com/ch220048/eventcenter/data/repository/EventRepository.kt:91-95 | any signed-in user deletes any event |
| EventRepo.AddCommentRating | app/src/main/java/com/ch220048/eventcenter/data/repository/EventRepository.kt:319-390 | after addComment the event's stored count and mean are those of all its remote comments |
| EventRepo.AddCommentCounts | app/src/main/java/com/ch220048/eventcenter/data/repository/EventRepository.kt:319-340 | a fresh comment adds one to the event's count |
| EventRepo.AddCommentPartial | app/src/main/java/com/ch220048/eventcenter/data/repository/EventRepository.kt:319-340 | the comment is stored in both stores even when the event is missing, the call then fails, and the local events are untouched |
| EventRepo.CreateEventKeepsKeyed | app/src/main/java/com/ch220048/eventcenter/data/repository/EventRepository.kt:34-65 | createEvent keeps every record under its own id |
| EventRepo.DeleteEventKeepsKeyed | app/src/main/java/com/ch220048/eventcenter/data/repository/EventRepository.kt:91-125 | deleteEvent keeps every record under its own id |
| EventRepo.ConfirmKeepsKeyed | app/src/main/java/com/ch220048/eventcenter/data/repository/EventRepository.kt:244-283 | confirmarAsistencia keeps every record under its own id |
| EventRepo.CancelKeepsKeyed | app/src/main/java/com/ch220048/eventcenter/data/repository/EventRepository.kt:291-314 | cancelarAsistencia keeps every record under its own id |
| EventRepo.AddCommentKeepsKeyed | app/src/main/java/com/ch220048/eventcenter/data/repository/EventRepository.kt:319-340 | addComment keeps every record under its own id |
| EventRepo.EventRepository.CreateEvent | app/src/main/java/com/ch220048/eventcenter/data/repository/EventRepository.kt:34-65 | the writes reach exactly CreateEventSpec's result and stores |
| EventRepo.EventRepository.UpdateEvent | app/src/main/java/com/ch220048/eventcenter/data/repository/EventRepository.kt:70-83 | the writes reach exactly UpdateEventSpec's result and stores |
| EventRepo.EventRepository.DeleteEvent | app/src/main/java/com/ch220048/eventcenter/data/repository/EventRepository.kt:91-125 | the deletes and the later writes reach exactly DeleteEventSpec's result and stores |
| EventRepo.EventRepository.DeleteRemoteComments | app/src/main/java/com/ch220048/eventcenter/data/repository/EventRepository.kt:100-106 | deleting the documents of the comments query, one at a time, leaves exactly the remote comments about other events, and events and users untouched |
| EventRepo.EventRepository.GetEventById | app/src/main/java/com/ch220048/eventcenter/data/repository/EventRepository.kt:227-236 | the remote event, or none exactly when there is no such document |
| EventRepo.EventRepository.ConfirmarAsistencia | app/src/main/java/com/ch220048/eventcenter/data/repository/EventRepository.kt:244-283 | the writes reach exactly ConfirmSpec's result and stores |
| EventRepo.EventRepository.CancelarAsistencia | app/src/main/java/com/ch220048/eventcenter/data/repository/EventRepository.kt:291-314 | the writes reach exactly CancelSpec's result and stores |
| EventRepo.EventRepository.AddComment | app/src/main/java/com/ch220048/eventcenter/data/repository/EventRepository.kt:319-340 | the writes reach exactly AddCommentSpec's result and stores |
| EventRepo.EventRepository.ActualizarCalificacionEvento | app/src/main/java/com/ch220048/eventcenter/data/repository/EventRepository.kt:368-390 | the writes reach exactly RefreshRatingSpec: the count and mean of the event's comments, nothing when it has none |
| AuthRepo.ProfileFromClaims | app/src/main/java/com/ch220048/eventcenter/data/repository/AuthRepository.kt:81-86 | the fallback profile carries the uid, display name and email (empty when absent) and empty lists |
| AuthRepo.CurrentUserSpec | app/src/main/java/com/ch220048/eventcenter/data/repository/AuthRepository.kt:134-145 | a current user is returned only when someone is signed in and has a profile document |
| AuthRepo.ProviderFailureWritesNothing | app/src/main/java/com/ch220048/eventcenter/data/repository/AuthRepository.kt:31-129 | a refused or empty provider answer fails and changes nothing |
| AuthRepo.RegisterStoresProfile | app/src/main/java/com/ch220048/eventcenter/data/repository/AuthRepository.kt:31-63 | registering stores a fresh profile under the uid, keeps the others, and getCurrentUser returns it |
| AuthRepo.LoginWithEmailReadsOnly | app/src/main/java/com/ch220048/eventcenter/data/repository/AuthRepository.kt:68-91 | email sign-in writes no profile; without a document the returned profile is one getCurrentUser will not find |
| AuthRepo.LoginWithGoogleGetOrCreate | app/src/main/java/com/ch220048/eventcenter/data/repository/AuthRepository.kt:107-124 | Google sign-in returns the stored profile unchanged or stores a new one, and getCurrentUser returns it |
| AuthRepo.LoginWithGoogleIdempotent | app/src/main/java/com/ch220048/eventcenter/data/repository/AuthRepository.kt:96-129 | signing in twice with Google gives the same profile and the same stores |
| AuthRepo.AuthRepository.constructor | app/src/main/java/com/ch220048/eventcenter/data/repository/AuthRepository.kt:17-26 | a new repository holds the session the authentication service already has, signed in or not |
| AuthRepo.AuthRepository.RegisterWithEmail | app/src/main/java/com/ch220048/eventcenter/data/repository/AuthRepository.kt:31-63 | reaches exactly RegisterSpec, leaving events and comments alone |
| AuthRepo.AuthRepository.LoginWithEmail | app/src/main/java/com/ch220048/eventcenter/data/repository/AuthRepository.kt:68-91 | reaches exactly LoginWithEmailSpec |
| AuthRepo.AuthRepository.LoginWithGoogle | app/src/main/java/com/ch220048/eventcenter/data/repository/AuthRepository.kt:96-129 | reaches exactly LoginWithGoogleSpec, leaving events and comments alone |
| AuthRepo.AuthRepository.GetCurrentUser | app/src/main/java/com/ch220048/eventcenter/data/repository/AuthRepository.kt:134-145 | returns CurrentUserSpec of the state |
| AuthRepo.AuthRepository.SignOut | app/src/main/java/com/ch220048/eventcenter/data/repository/AuthRepository.kt:150-152 | nobody is signed in afterwards |
| AuthVM.ErrorText | app/src/main/java/com/ch220048/eventcenter/ui/auth/AuthViewModel.kt:141-153 | the first keyword found decides, in the order "password", "email", "network", "already in use", each mapped to its Spanish text; a message with none of them is shown as it is, and a missing message as "Error desconocido" |
| AuthVM.EmailBeforeAlreadyInUse | app/src/main/java/com/ch220048/eventcenter/ui/auth/AuthViewModel.kt:145-150 | a message with both "email" and "already in use" gets the email text |
| AuthVM.InUseTextExactly | app/src/main/java/com/ch220048/eventcenter/ui/auth/AuthViewModel.kt:141-153 | "Este email ya está registrado" comes out exactly for messages with "already in use" and none of the earlier keywords |
| AuthVM.Begin | app/src/main/java/com/ch220048/eventcenter/ui/auth/AuthViewModel.kt:45 | an intent starts loading, clears the error and keeps the rest |
| AuthVM.IntentSucceeds | app/src/main/java/com/ch220048/eventcenter/ui/auth/AuthViewModel.kt:49-57 | after success the user is signed in and shown with the success text, not loading, no error |
| AuthVM.IntentFails | app/src/main/java/com/ch220048/eventcenter/ui/auth/AuthViewModel.kt:58-63 | after failure the mapped error shows and the signed-in user and success message are kept |
| AuthVM.Cleared | app/src/main/java/com/ch220048/eventcenter/ui/auth/AuthViewModel.kt:129-134 | clearing removes both messages and keeps every other field |
| AuthVM.AuthViewModel.constructor | app/src/main/java/com/ch220048/eventcenter/ui/auth/AuthViewModel.kt:27-41 | the initial state is authenticated exactly when getCurrentUser finds a profile |
| AuthVM.AuthViewModel.CheckAuthState | app/src/main/java/com/ch220048/eventcenter/ui/auth/AuthViewModel.kt:31-41 | loading ends and authentication reflects getCurrentUser |
| AuthVM.AuthViewModel.RegisterWithEmail | app/src/main/java/com/ch220048/eventcenter/ui/auth/AuthViewModel.kt:43-66 | the state is Begin then settled with RegisterSpec's result, and the repository reaches RegisterSpec |
| AuthVM.AuthViewModel.LoginWithEmail | app/src/main/java/com/ch220048/eventcenter/ui/auth/AuthViewModel.kt:68-91 | the same for LoginWithEmailSpec |
| AuthVM.AuthViewModel.LoginWithGoogle | app/src/main/java/com/ch220048/eventcenter/ui/auth/AuthViewModel.kt:93-116 | the same for LoginWithGoogleSpec |
| AuthVM.AuthViewModel.SignOut | app/src/main/java/com/ch220048/eventcenter/ui/auth/AuthViewModel.kt:118-127 | the state returns to its defaults and nobody is signed in |
| AuthVM.AuthViewModel.ClearMessages | app/src/main/java/com/ch220048/eventcenter/ui/auth/AuthViewModel.kt:129-134 | the state becomes Cleared of the old state |
| AuthVM.AuthViewModel.RefreshCurrentUser | app/src/main/java/com/ch220048/eventcenter/ui/auth/AuthViewModel.kt:135-140 | only the current user changes, to getCurrentUser's answer |
| EventVM.MisEventosAreOwn | app/src/main/java/com/ch220048/eventcenter/ui/events/EventViewModel.kt:349-351 | the "mine" list is exactly the events isOrganizador holds for; signed out it is the events with empty organizer |
| EventVM.PastListMatchesHasEventPassed | app/src/main/java/com/ch220048/eventcenter/ui/events/EventViewModel.kt:373-375 | the past list is exactly the events hasEventPassed holds for and the upcoming list the rest |
| EventVM.SettleWrite | app/src/main/java/com/ch220048/eventcenter/ui/events/EventViewModel.kt:173-249 | a write ends loading and shows the success message or the prefixed error, keeping every other field |
| EventVM.WriteIntentOutcome | app/src/main/java/com/ch220048/eventcenter/ui/events/EventViewModel.kt:173-249 | the success message appears exactly when the repository succeeded, and then no error does |
| EventVM.Cleared | app/src/main/java/com/ch220048/eventcenter/ui/events/EventViewModel.kt:363-368 | clearing removes both messages and keeps every other field |
| EventVM.ConfirmShowsAttendance | app/src/main/java/com/ch220048/eventcenter/ui/events/EventViewModel.kt:254-287 | after a successful confirmation the reloaded event lists the user |
| EventVM.CancelHidesAttendance | app/src/main/java/com/ch220048/eventcenter/ui/events/EventViewModel.kt:292-310 | after a successful cancellation the reloaded event no longer lists the user |
| EventVM.EventViewModel.constructor | app/src/main/java/com/ch220048/eventcenter/ui/events/EventViewModel.kt:39-42 | construction loads all events and then the upcoming ones, or shows the listeners' errors |
| EventVM.EventViewModel.LoadAllEvents | app/src/main/java/com/ch220048/eventcenter/ui/events/EventViewModel.kt:48-66 | the list is every remote event newest first, or the prefixed error |
| EventVM.EventViewModel.LoadProximosEventos | app/src/main/java/com/ch220048/eventcenter/ui/events/EventViewModel.kt:71-85 | the list is every event that has not passed, soonest first, or the prefixed error |
| EventVM.EventViewModel.LoadEventosPasados | app/src/main/java/com/ch220048/eventcenter/ui/events/EventViewModel.kt:90-104 | the list is every event that has passed, newest first, or the prefixed error |
| EventVM.EventViewModel.LoadMisEventos | app/src/main/java/com/ch220048/eventcenter/ui/events/EventViewModel.kt:109-123 | the list is the caller's events, newest first, or the prefixed error; signed out, it is the events whose organizer id is empty |
| EventVM.EventViewModel.LoadComments | app/src/main/java/com/ch220048/eventcenter/ui/events/EventViewModel.kt:154-168 | the comments are the event's, newest first, or the prefixed error |
| EventVM.EventViewModel.LoadEventById | app/src/main/java/com/ch220048/eventcenter/ui/events/EventViewModel.kt:128-149 | a missing event shows "Evento no encontrado"; a found one is shown with its comments |
| EventVM.EventViewModel.CreateEvent | app/src/main/java/com/ch220048/eventcenter/ui/events/EventViewModel.kt:173-195 | the stores reach CreateEventSpec, the state is settled, and the callback runs exactly on success |
| EventVM.EventViewModel.UpdateEvent | app/src/main/java/com/ch220048/eventcenter/ui/events/EventViewModel.kt:200-222 | the same for UpdateEventSpec |
| EventVM.EventViewModel.DeleteEvent | app/src/main/java/com/ch220048/eventcenter/ui/events/EventViewModel.kt:227-249 | the same for DeleteEventSpec |
| EventVM.EventViewModel.ConfirmarAsistencia | app/src/main/java/com/ch220048/eventcenter/ui/events/EventViewModel.kt:254-287 | the stores reach ConfirmSpec; a failure shows the error only; a success notifies about the attendee and reloads the event |
| EventVM.EventViewModel.CancelarAsistencia | app/src/main/java/com/ch220048/eventcenter/ui/events/EventViewModel.kt:292-310 | the stores reach CancelSpec; a success shows the message and reloads the event |
| EventVM.EventViewModel.AddComment | app/src/main/java/com/ch220048/eventcenter/ui/events/EventViewModel.kt:315-344 | the stores reach AddCommentSpec; a success shows the message and notifies about the comment without reloading |
| EventVM.EventViewModel.ClearMessages | app/src/main/java/com/ch220048/eventcenter/ui/events/EventViewModel.kt:363-368 | the state becomes Cleared of the old state |
| Notifications.Stars | app/src/main/java/com/ch220048/eventcenter/utils/NotificationHelper.kt:146 | the star string has exactly `rating` characters, all stars |
| Notifications.ReminderNotice | app/src/main/java/com/ch220048/eventcenter/utils/NotificationHelper.kt:55-90 | a reminder is posted exactly with permission, for the event, with the reminder title |
| Notifications.AttendeeNotice | app/src/main/java/com/ch220048/eventcenter/utils/NotificationHelper.kt:95-132 | an attendee notice is posted exactly with permission, for the event, with its title |
| Notifications.CommentNotice | app/src/main/java/com/ch220048/eventcenter/utils/NotificationHelper.kt:137-177 | a comment notice is posted exactly with permission and a non-negative rating, and its text ends with `rating` stars |
| Notifications.ScheduleEventReminder | app/src/main/java/com/ch220048/eventcenter/utils/NotificationHelper.kt:182-202 | the reminder goes out exactly when the event starts more than one day and less than a day and an hour from now |
| EventForm.CapacityParses | app/src/main/java/com/ch220048/eventcenter/ui/events/CreateEventScreen.kt:338-340 | a text the capacity field accepts parses to its decimal value (none when empty or beyond Int), never negative |
| EventForm.Pad2 | app/src/main/java/com/ch220048/eventcenter/ui/events/CreateEventScreen.kt:128 | "%02d" of a number below 100 is two digits that read back as the number |
| EventForm.FormatTimeReadsBack | app/src/main/java/com/ch220048/eventcenter/ui/events/CreateEventScreen.kt:128 | a picked time is five characters HH:mm whose digits read back as the hour and minute |
| CreateEventScreen.TitleError | app/src/main/java/com/ch220048/eventcenter/ui/events/CreateEventScreen.kt:66-74 | the title passes exactly when not blank and at least 5 UTF-16 code units long, as `String.length` counts; "requerido" exactly when blank |
| CreateEventScreen.DescriptionError | app/src/main/java/com/ch220048/eventcenter/ui/events/CreateEventScreen.kt:76-84 | the description passes exactly when not blank and at least 20 UTF-16 code units long |
| CreateEventScreen.WideCharactersCountTwice | app/src/main/java/com/ch220048/eventcenter/ui/events/CreateEventScreen.kt:66-74 | three characters above U+FFFF are six code units, so such a title passes the length check |
| CreateEventScreen.LocationError | app/src/main/java/com/ch220048/eventcenter/ui/events/CreateEventScreen.kt:86-91 | the location passes exactly when not blank |
| CreateEventScreen.DateError | app/src/main/java/com/ch220048/eventcenter/ui/events/CreateEventScreen.kt:93-98 | the date passes exactly when one is picked |
| CreateEventScreen.TimeError | app/src/main/java/com/ch220048/eventcenter/ui/events/CreateEventScreen.kt:100-105 | the time passes exactly when not blank |
| CreateEventScreen.PickedTimePasses | app/src/main/java/com/ch220048/eventcenter/ui/events/CreateEventScreen.kt:128 | a time written by the picker always passes the time check |
| CreateEventScreen.StoredTitleCanBeShort | app/src/main/java/com/ch220048/eventcenter/ui/events/CreateEventScreen.kt:69-403 | the length check reads the untrimmed text, so a passing title can be stored with one character |
| CreateEventScreen.BuildEvent | app/src/main/java/com/ch220048/eventcenter/ui/events/CreateEventScreen.kt:402-414 | the built event has trimmed texts, the user as organizer, the parsed capacity, the licence's code and state PROXIMO |
| CreateEventScreen.BuiltCapacityNotNegative | app/src/main/java/com/ch220048/eventcenter/ui/events/CreateEventScreen.kt:338-340 | a form filled through its handlers never builds a negative capacity |
| CreateEventScreen.CreateEventForm.constructor | app/src/main/java/com/ch220048/eventcenter/ui/events/CreateEventScreen.kt:38-55 | an empty form with category "General", licence CC BY and no errors |
| CreateEventScreen.CreateEventForm.OnCapacityChange | app/src/main/java/com/ch220048/eventcenter/ui/events/CreateEventScreen.kt:338-340 | the field takes a new text only when it is empty or all digits |
| CreateEventScreen.CreateEventForm.OnTimePicked | app/src/main/java/com/ch220048/eventcenter/ui/events/CreateEventScreen.kt:128 | the time becomes "%02d:%02d" of the pick |
| CreateEventScreen.CreateEventForm.ValidateFields | app/src/main/java/com/ch220048/eventcenter/ui/events/CreateEventScreen.kt:63-108 | every check runs and sets its own error; valid exactly when none is left |
| CreateEventScreen.CreateEventForm.Submit | app/src/main/java/com/ch220048/eventcenter/ui/events/CreateEventScreen.kt:397-420 | an event is handed on exactly when every check passes and a user and date are present, and it is BuildEvent of the form |
| EditEventScreen.CapacityText | app/src/main/java/com/ch220048/eventcenter/ui/events/EditEventScreen.kt:66 | the field is empty exactly when the event has no capacity |
| EditEventScreen.CapacityTextReadsBack | app/src/main/java/com/ch220048/eventcenter/ui/events/EditEventScreen.kt:66-393 | reading the field back gives the stored capacity |
| EditEventScreen.ApplyEdits | app/src/main/java/com/ch220048/eventcenter/ui/events/EditEventScreen.kt:386-395 | the copy changes only the eight edited fields (texts trimmed) and keeps id, organizer, attendees, rating and state |
| EditEventScreen.UntouchedSaveIsIdentity | app/src/main/java/com/ch220048/eventcenter/ui/events/EditEventScreen.kt:58-68 | saving an untouched form gives back the event when its texts are trimmed and its codes valid |
| EditEventScreen.UnknownLicenseBecomesCcBy | app/src/main/java/com/ch220048/eventcenter/ui/events/EditEventScreen.kt:67 | an unknown licence code is replaced by CC BY on save |
| EditEventScreen.EditEventForm.constructor | app/src/main/java/com/ch220048/eventcenter/ui/events/EditEventScreen.kt:58-68 | the fields start from the loaded event |
| EditEventScreen.EditEventForm.ValidateFields | app/src/main/java/com/ch220048/eventcenter/ui/events/EditEventScreen.kt:82-107 | the three blank checks all run; valid exactly when none fails |
| EditEventScreen.EditEventForm.Save | app/src/main/java/com/ch220048/eventcenter/ui/events/EditEventScreen.kt:384-400 | an event is handed on exactly when the three texts are filled, and it is ApplyEdits of the form |
| RegisterScreen.NameError | app/src/main/java/com/ch220048/eventcenter/ui/auth/RegisterScreen.kt:65-73 | the name passes exactly when not blank and at least 3 UTF-16 code units long |
| RegisterScreen.EmailError | app/src/main/java/com/ch220048/eventcenter/ui/auth/RegisterScreen.kt:76-84 | the email passes exactly when not blank and matching the address pattern |
| RegisterScreen.PasswordError | app/src/main/java/com/ch220048/eventcenter/ui/auth/RegisterScreen.kt:87-95 | the password passes exactly when not blank and at least 6 UTF-16 code units long |
| RegisterScreen.ConfirmError | app/src/main/java/com/ch220048/eventcenter/ui/auth/RegisterScreen.kt:98-106 | the confirmation passes exactly when not blank and equal to the password |
| RegisterScreen.SpacesPasswordIsMissing | app/src/main/java/com/ch220048/eventcenter/ui/auth/RegisterScreen.kt:87-89 | a password of spaces is reported missing, whatever its length |
| RegisterScreen.MatchingConfirmationPasses | app/src/main/java/com/ch220048/eventcenter/ui/auth/RegisterScreen.kt:87-106 | a confirmation equal to a passing password passes |
| RegisterScreen.RegisterForm.ValidateFields | app/src/main/java/com/ch220048/eventcenter/ui/auth/RegisterScreen.kt:61-109 | all four checks run and set their errors; valid exactly when none is left |
| RegisterScreen.RegisterForm.Submit | app/src/main/java/com/ch220048/eventcenter/ui/auth/RegisterScreen.kt:278-283 | the request goes out exactly when all four checks pass, with the texts as typed |
| EventDetailScreen.AttendanceControls | app/src/main/java/com/ch220048/eventcenter/ui/events/EventDetailScreen.kt:396-456 | the organizer gets the organizer actions only; anyone else gets exactly one of the attendance button and the finished notice |
| EventDetailScreen.SignedOutControls | app/src/main/java/com/ch220048/eventcenter/ui/events/EventDetailScreen.kt:139-456 | signed out, there are no organizer actions or comment button, and an upcoming event offers the confirm button |
| EventDetailScreen.CommentButtonIgnoresDate | app/src/main/java/com/ch220048/eventcenter/ui/events/EventDetailScreen.kt:456 | organizer and attendees can comment before and after the event |
| EventDetailScreen.ConfirmUnlocksComment | app/src/main/java/com/ch220048/eventcenter/ui/events/EventDetailScreen.kt:396-465 | after a confirmation and reload the comment button shows, and the cancel button while the event is ahead |
| EventDetailScreen.CommentDialog.constructor | app/src/main/java/com/ch220048/eventcenter/ui/events/EventDetailScreen.kt:692-693 | a new dialog has no text and five stars |
| EventDetailScreen.CommentDialog.PickStar | app/src/main/java/com/ch220048/eventcenter/ui/events/EventDetailScreen.kt:707 | tapping a star sets that rating, which stays in 1-5 |
| EventDetailScreen.CommentDialog.Publish | app/src/main/java/com/ch220048/eventcenter/ui/events/EventDetailScreen.kt:728-734 | publishes exactly when the text is not blank, the trimmed (non-empty) text and a star rating |
| EventDetailScreen.DialogComment | app/src/main/java/com/ch220048/eventcenter/ui/events/EventDetailScreen.kt:533-547 | a comment is built exactly with an event and a user, carrying their ids, the user's name and photo, the text and rating |
| EventDetailScreen.DialogKeepsMeanInStars | app/src/main/java/com/ch220048/eventcenter/ui/events/EventDetailScreen.kt:533-547 | when all of an event's comments come from the dialog, its stored mean stays between 1 and 5 |
| HomeScreen.EventosFiltrados | app/src/main/java/com/ch220048/eventcenter/ui/events/HomeScreen.kt:67-73 | "Todos" keeps the list; another chip keeps exactly its category's events, every copy of each, in order |
| HomeScreen.CountLabelReadsBack | app/src/main/java/com/ch220048/eventcenter/ui/events/HomeScreen.kt:292 | the label is the decimal size of the filtered list followed by " eventos disponibles" |
| HomeScreen.ChipsOmitOtro | app/src/main/java/com/ch220048/eventcenter/ui/events/HomeScreen.kt:245-255 | the chips are "Todos" and the form categories without "Otro" |
| HomeScreen.OtroOnlyUnderTodos | app/src/main/java/com/ch220048/eventcenter/ui/events/HomeScreen.kt:67-73 | an "Otro" event shows under "Todos" and under no other chip |
| HomeScreen.ChipsKeepUpcomingOrder | app/src/main/java/com/ch220048/eventcenter/ui/events/HomeScreen.kt:67-73 | every chip lists upcoming events only, soonest first |
| OrganizerDashboard.RatingCardOf | app/src/main/java/com/ch220048/eventcenter/ui/events/OrganizerDashboardScreen.kt:156-158 | "N/A" exactly when the event has no ratings, else the stored mean |
| OrganizerDashboard.RatedAfterComment | app/src/main/java/com/ch220048/eventcenter/ui/events/OrganizerDashboardScreen.kt:156-158 | after a comment the card shows the mean of the event's comments |
| OrganizerDashboard.TruncDiv | app/src/main/java/com/ch220048/eventcenter/ui/events/OrganizerDashboardScreen.kt:168 | Int division truncates; for non-negative over positive operands it is the floor quotient |
| OrganizerDashboard.OccupancyOf | app/src/main/java/com/ch220048/eventcenter/ui/events/OrganizerDashboardScreen.kt:167-169 | "N/A" exactly without a capacity, a division by zero exactly at capacity 0, else the truncated percentage |
| OrganizerDashboard.OccupancyMeasuresFill | app/src/main/java/com/ch220048/eventcenter/ui/events/OrganizerDashboardScreen.kt:167-169 | the percentage is the whole part of 100·attendees/capacity and reaches 100 exactly when the event is full |
| OrganizerDashboard.ZeroCapacityDividesByZero | app/src/main/java/com/ch220048/eventcenter/ui/events/OrganizerDashboardScreen.kt:168 | a capacity field of "0" is accepted by the form and makes the card divide by zero |
| OrganizerDashboard.CommentsSectionOf | app/src/main/java/com/ch220048/eventcenter/ui/events/OrganizerDashboardScreen.kt:254-266 | hidden exactly without comments; the first three as preview; "see all" exactly with more than three |
| OrganizerDashboard.NoCommentHiddenSilently | app/src/main/java/com/ch220048/eventcenter/ui/events/OrganizerDashboardScreen.kt:254-266 | every comment is in the preview or the "see all" button is offered |
| OrganizerDashboard.GatheredMembers | app/src/main/java/com/ch220048/eventcenter/ui/events/OrganizerDashboardScreen.kt:407-425 | a gathered user is exactly a stored profile of one of the ids |
| OrganizerDashboard.GatheredAll | app/src/main/java/com/ch220048/eventcenter/ui/events/OrganizerDashboardScreen.kt:407-425 | nobody is skipped exactly when every id has a profile |
| OrganizerDashboard.GatheredPrefix | app/src/main/java/com/ch220048/eventcenter/ui/events/OrganizerDashboardScreen.kt:407-425 | gathering a prefix of the ids gives a prefix of the full list |
| OrganizerDashboard.LoadAttendees | app/src/main/java/com/ch220048/eventcenter/ui/events/OrganizerDashboardScreen.kt:407-425 | the loop returns the profiles of the ids read before the first failed read, in id order |
| OrganizerDashboard.LoadedAttendeesArePrefix | app/src/main/java/com/ch220048/eventcenter/ui/events/OrganizerDashboardScreen.kt:407-425 | the list shown is the start of the full list and holds only profiles of attendees |

## Left out

- Coroutines, snapshot listeners and the order in which concurrent loads finish
  are not modelled. Each listener is one read of the current store, or the error
  it reports. The two loads in EventViewModel's init run in sequence.
- Float arithmetic is not modelled. The mean rating is an exact real; `%.1f`
  formatting and the Float rounding of `calificacionPromedio` are left out.
- Date formatting (`SimpleDateFormat`), the date and time picker dialogs and the
  clock are not modelled. Instants are integers, and the clock is the `now`
  parameter.
- Text is simplified. `isBlank` and `trim` use Kotlin's whitespace characters,
  written out as a fixed set of code points. `isDigit` accepts only the ASCII
  digits, not Unicode's full digit class.
  `android.util.Patterns.EMAIL_ADDRESS` is the parameter `emailPattern`.
- Identity: passwords, tokens and `sendPasswordResetEmail` belong to the identity
  provider and are not modelled. Its answer to each request is an input.
- Notifications: the channel, intents and notification ids (`hashCode`) are left
  out. A notice is its event id, title and text, and permission is an input.
- OrganizerDashboard.OccupancyOf: the product `asistentes.size * 100` is
  unbounded, so a 32-bit overflow for more than about 21 million attendees is not
  modelled.
- Notifications.CommentNotice: `String.repeat` throws for a negative rating. The
  model posts no notice then and does not model the exception.
- OrganizerDashboard.LoadAttendees: a read that throws is the `failAt` input. The
  real cause (network, deserialisation) is not modelled.
- Remote writes never fail on their own. The only failures modelled are a missing
  document for `update`, a missing user or event, and the signed-out caller.
- EditEventScreen.EditEventForm.constructor: the form is modelled from the moment
  its event has loaded. The loading spinner and the not-found text before that
  are left out.
- Screens outside the core are not part of this model:
  - LoginScreen, ProfileScreen, HistoryScreen, MyEventsScreen and AboutScreen;
  - the navigation graph;
  - ShareHelper;
  - the Room `users` table, `UserDao` and `AppDatabase`.
- Layout, theming, icons and images are not modelled.
