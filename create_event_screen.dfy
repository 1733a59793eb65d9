/** CreateEventScreen: the form's fields and error texts, the validation pass over
    all five checks, the input handlers, and the event the form hands to
    EventViewModel.createEvent. */
module CreateEventScreen {
  import opened Common
  import opened Model
  import opened CCLicenses
  import opened EventForm

  const TitleRequired: string := "El título es requerido"
  const TitleTooShort: string := "El título debe tener al menos 5 caracteres"
  const DescriptionRequired: string := "La descripción es requerida"
  const DescriptionTooShort: string := "La descripción debe tener al menos 20 caracteres"
  const LocationRequired: string := "La ubicación es requerida"
  const DateRequired: string := "Selecciona una fecha"
  const TimeRequired: string := "Selecciona una hora"

  /** The title check: required, then at least five characters of the text as typed. */
  function TitleError(titulo: string): (r: Option<string>)
    ensures r.None? <==> !IsBlank(titulo) && Utf16Length(titulo) >= 5
    ensures r == Some(TitleRequired) <==> IsBlank(titulo)
    ensures r.Some? ==> r.value in {TitleRequired, TitleTooShort}
  {
    if IsBlank(titulo) then Some(TitleRequired)
    else if Utf16Length(titulo) < 5 then Some(TitleTooShort)
    else None
  }

  /** The description check: required, then at least twenty characters as typed. */
  function DescriptionError(descripcion: string): (r: Option<string>)
    ensures r.None? <==> !IsBlank(descripcion) && Utf16Length(descripcion) >= 20
    ensures r == Some(DescriptionRequired) <==> IsBlank(descripcion)
    ensures r.Some? ==> r.value in {DescriptionRequired, DescriptionTooShort}
  {
    if IsBlank(descripcion) then Some(DescriptionRequired)
    else if Utf16Length(descripcion) < 20 then Some(DescriptionTooShort)
    else None
  }

  function LocationError(ubicacion: string): (r: Option<string>)
    ensures r.None? <==> !IsBlank(ubicacion)
    ensures r.Some? ==> r.value == LocationRequired
  {
    if IsBlank(ubicacion) then Some(LocationRequired) else None
  }

  function DateError(selectedDate: Option<int>): (r: Option<string>)
    ensures r.None? <==> selectedDate.Some?
    ensures r.Some? ==> r.value == DateRequired
  {
    if selectedDate.None? then Some(DateRequired) else None
  }

  function TimeError(selectedTime: string): (r: Option<string>)
    ensures r.None? <==> !IsBlank(selectedTime)
    ensures r.Some? ==> r.value == TimeRequired
  {
    if IsBlank(selectedTime) then Some(TimeRequired) else None
  }

  /** A time written by the time picker always passes the time check. */
  lemma PickedTimePasses(hour: nat, minute: nat)
    ensures TimeError(FormatTime(hour, minute)) == None
  {
    var t := FormatTime(hour, minute);
    assert t[|Pad2(hour)|] == ':';
  }

  /** The length checks look at the text as typed while the event stores it trimmed,
      so a title that passes can be stored with fewer than five characters. */
  lemma StoredTitleCanBeShort()
    ensures TitleError("a    ") == None && Trim("a    ") == "a"
  {
    var s := "a    ";
    assert !IsWhitespace(s[0]);
    assert TrimStart(s) == s;
    assert TrimEnd(s[..1]) == "a";
    assert s[..4][..3][..2][..1] == s[..1];
  }

  /** The length check counts UTF-16 units, as Kotlin does: three characters from
      outside the Basic Multilingual Plane make a title long enough. */
  lemma WideCharactersCountTwice()
    ensures var s := "\U{1F389}\U{1F389}\U{1F389}";
      |s| == 3 && Utf16Length(s) == 6 && TitleError(s) == None
  {
    var s := "\U{1F389}\U{1F389}\U{1F389}";
    assert s[1..][1..][1..] == [];
    assert !IsWhitespace(s[0]);
  }

  /** The event the form builds: the draft's defaults, with the trimmed texts, the
      picked date and time, the signed-in user as organizer, the capacity parsed from
      its field, the license code and the upcoming state. */
  function BuildEvent(titulo: string, descripcion: string, fecha: int, hora: string, ubicacion: string,
                      user: User, categoria: string, capacidad: string, license: CCLicense, now: int): (e: Event)
    ensures e.id == "" && e.estado == Proximo && e.asistentes == [] && e.totalCalificaciones == 0
    ensures e.titulo == Trim(titulo) && e.descripcion == Trim(descripcion) && e.ubicacion == Trim(ubicacion)
    ensures e.organizadorId == user.id && e.organizadorNombre == user.nombre
    ensures e.capacidadMaxima == ToIntOrNull(capacidad)
    ensures FromCodigo(e.licenciaCC) == license
  {
    FromCodigoRoundTrip(license);
    DefaultEvent(now).(titulo := Trim(titulo), descripcion := Trim(descripcion), fecha := fecha, hora := hora,
                       ubicacion := Trim(ubicacion), organizadorId := user.id, organizadorNombre := user.nombre,
                       categoria := categoria, capacidadMaxima := ToIntOrNull(capacidad),
                       licenciaCC := Codigo(license), estado := Proximo)
  }

  class CreateEventForm {
    var titulo: string
    var descripcion: string
    var ubicacion: string
    var selectedDate: Option<int>
    var selectedTime: string
    var categoria: string
    var capacidadMaxima: string
    var selectedLicense: CCLicense
    var tituloError: Option<string>
    var descripcionError: Option<string>
    var ubicacionError: Option<string>
    var fechaError: Option<string>
    var horaError: Option<string>

    /** An empty form: category "General", license CC BY, no errors. */
    constructor()
      ensures titulo == "" && descripcion == "" && ubicacion == "" && selectedDate == None && selectedTime == ""
      ensures categoria == "General" && capacidadMaxima == "" && selectedLicense == CcBy
      ensures tituloError == None && descripcionError == None && ubicacionError == None
      ensures fechaError == None && horaError == None
    {
      titulo, descripcion, ubicacion := "", "", "";
      selectedDate, selectedTime := None, "";
      categoria, capacidadMaxima, selectedLicense := "General", "", CcBy;
      tituloError, descripcionError, ubicacionError, fechaError, horaError := None, None, None, None, None;
    }

    /** Typing in a text field replaces its text and clears its error. */
    method OnTituloChange(text: string)
      modifies this`titulo, this`tituloError
      ensures titulo == text && tituloError == None
    {
      titulo := text;
      tituloError := None;
    }

    method OnDescripcionChange(text: string)
      modifies this`descripcion, this`descripcionError
      ensures descripcion == text && descripcionError == None
    {
      descripcion := text;
      descripcionError := None;
    }

    method OnUbicacionChange(text: string)
      modifies this`ubicacion, this`ubicacionError
      ensures ubicacion == text && ubicacionError == None
    {
      ubicacion := text;
      ubicacionError := None;
    }

    /** The date picker stores the picked instant and clears the date error. */
    method OnDatePicked(instant: int)
      modifies this`selectedDate, this`fechaError
      ensures selectedDate == Some(instant) && fechaError == None
    {
      selectedDate := Some(instant);
      fechaError := None;
    }

    /** The time picker stores "HH:mm" and clears the time error. */
    method OnTimePicked(hour: nat, minute: nat)
      modifies this`selectedTime, this`horaError
      ensures selectedTime == FormatTime(hour, minute) && horaError == None
    {
      selectedTime := FormatTime(hour, minute);
      horaError := None;
    }

    method OnCategoryPicked(cat: string)
      modifies this`categoria
      ensures categoria == cat
    {
      categoria := cat;
    }

    method OnLicensePicked(license: CCLicense)
      modifies this`selectedLicense
      ensures selectedLicense == license
    {
      selectedLicense := license;
    }

    /** The capacity field keeps its text unless the new one is empty or all digits. */
    method OnCapacityChange(text: string)
      modifies this`capacidadMaxima
      ensures capacidadMaxima == if AcceptsCapacity(text) then text else old(capacidadMaxima)
    {
      if text == [] || AllDigits(text) {
        capacidadMaxima := text;
      }
    }

    /** validateFields: every check runs, each setting its own error, and the form is
        valid exactly when no error is left. */
    method ValidateFields() returns (isValid: bool)
      modifies this`tituloError, this`descripcionError, this`ubicacionError, this`fechaError, this`horaError
      ensures tituloError == TitleError(titulo) && descripcionError == DescriptionError(descripcion)
      ensures ubicacionError == LocationError(ubicacion) && fechaError == DateError(selectedDate)
      ensures horaError == TimeError(selectedTime)
      ensures isValid <==> tituloError == None && descripcionError == None && ubicacionError == None
                           && fechaError == None && horaError == None
    {
      isValid := true;
      if IsBlank(titulo) {
        tituloError := Some(TitleRequired);
        isValid := false;
      } else if Utf16Length(titulo) < 5 {
        tituloError := Some(TitleTooShort);
        isValid := false;
      } else {
        tituloError := None;
      }
      assert tituloError == TitleError(titulo) && (isValid <==> tituloError == None);
      if IsBlank(descripcion) {
        descripcionError := Some(DescriptionRequired);
        isValid := false;
      } else if Utf16Length(descripcion) < 20 {
        descripcionError := Some(DescriptionTooShort);
        isValid := false;
      } else {
        descripcionError := None;
      }
      assert descripcionError == DescriptionError(descripcion);
      if IsBlank(ubicacion) {
        ubicacionError := Some(LocationRequired);
        isValid := false;
      } else {
        ubicacionError := None;
      }
      if selectedDate.None? {
        fechaError := Some(DateRequired);
        isValid := false;
      } else {
        fechaError := None;
      }
      if IsBlank(selectedTime) {
        horaError := Some(TimeRequired);
        isValid := false;
      } else {
        horaError := None;
      }
    }

    /** The create button: validate, then build the event only when someone is signed
        in and a date is picked. The result is the event handed to createEvent. */
    method Submit(currentUser: Option<User>, now: int) returns (draft: Option<Event>)
      modifies this`tituloError, this`descripcionError, this`ubicacionError, this`fechaError, this`horaError
      ensures draft.Some? <==> (TitleError(titulo) == None && DescriptionError(descripcion) == None
        && LocationError(ubicacion) == None && TimeError(selectedTime) == None
        && selectedDate.Some? && currentUser.Some?)
      ensures draft.Some? ==> draft.value == BuildEvent(titulo, descripcion, selectedDate.value, selectedTime, ubicacion,
                                                        currentUser.value, categoria, capacidadMaxima, selectedLicense, now)
    {
      var valid := ValidateFields();
      draft := None;
      if valid && currentUser.Some? && selectedDate.Some? {
        draft := Some(BuildEvent(titulo, descripcion, selectedDate.value, selectedTime, ubicacion,
                                 currentUser.value, categoria, capacidadMaxima, selectedLicense, now));
      }
    }
  }

  /** A form filled through its handlers builds an event whose capacity, when there is
      one, is not negative. */
  lemma BuiltCapacityNotNegative(titulo: string, descripcion: string, fecha: int, hora: string, ubicacion: string,
                                 user: User, categoria: string, capacidad: string, license: CCLicense, now: int)
    requires AcceptsCapacity(capacidad)
    ensures var e := BuildEvent(titulo, descripcion, fecha, hora, ubicacion, user, categoria, capacidad, license, now);
      e.capacidadMaxima.Some? ==> e.capacidadMaxima.value >= 0
  {
    CapacityParses(capacidad);
  }
}
