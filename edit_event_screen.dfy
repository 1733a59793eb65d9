/** EditEventScreen: the form is filled from the loaded event, checks only that the
    three texts are not blank, and saves a copy of the event with the eight edited
    fields replaced. The form is modelled from the moment the event has loaded, so
    its date is always set. */
module EditEventScreen {
  import opened Common
  import opened Model
  import opened CCLicenses
  import opened EventForm

  const TitleRequired: string := "El título es requerido"
  const DescriptionRequired: string := "La descripción es requerida"
  const LocationRequired: string := "La ubicación es requerida"

  /** The text of the capacity field for a stored capacity: its decimal form, or
      empty when there is no limit. */
  function CapacityText(capacidad: Option<int>): (r: string)
    ensures capacidad.None? <==> r == []
  {
    if capacidad.Some? then IntToString(capacidad.value) else ""
  }

  /** Reading the capacity field back gives the stored capacity. */
  lemma CapacityTextReadsBack(capacidad: Option<int>)
    requires capacidad.Some? ==> IntMin <= capacidad.value <= IntMax
    ensures ToIntOrNull(CapacityText(capacidad)) == capacidad
  {
    if capacidad.Some? {
      IntToStringRoundTrip(capacidad.value);
    }
  }

  /** The event's copy with the edited fields: trimmed texts, date, time, category,
      parsed capacity and license code; everything else is the event's own. */
  function ApplyEdits(event: Event, titulo: string, descripcion: string, fecha: int, hora: string, ubicacion: string,
                      categoria: string, capacidad: string, license: CCLicense): (e: Event)
    ensures e.id == event.id && e.organizadorId == event.organizadorId && e.organizadorNombre == event.organizadorNombre
    ensures e.asistentes == event.asistentes && e.estado == event.estado && e.fechaCreacion == event.fechaCreacion
    ensures e.calificacionPromedio == event.calificacionPromedio && e.totalCalificaciones == event.totalCalificaciones
    ensures e.latitud == event.latitud && e.longitud == event.longitud && e.imagenUrl == event.imagenUrl
    ensures e.titulo == Trim(titulo) && e.descripcion == Trim(descripcion) && e.ubicacion == Trim(ubicacion)
    ensures e.fecha == fecha && e.hora == hora && e.categoria == categoria
    ensures e.capacidadMaxima == ToIntOrNull(capacidad) && FromCodigo(e.licenciaCC) == license
  {
    FromCodigoRoundTrip(license);
    event.(titulo := Trim(titulo), descripcion := Trim(descripcion), fecha := fecha, hora := hora,
           ubicacion := Trim(ubicacion), categoria := categoria, capacidadMaxima := ToIntOrNull(capacidad),
           licenciaCC := Codigo(license))
  }

  class EditEventForm {
    const event: Event
    var titulo: string
    var descripcion: string
    var ubicacion: string
    var selectedDate: int
    var selectedTime: string
    var categoria: string
    var capacidadMaxima: string
    var selectedLicense: CCLicense
    var tituloError: Option<string>
    var descripcionError: Option<string>
    var ubicacionError: Option<string>

    /** The fields start from the loaded event; an unknown license code shows as CC BY. */
    constructor(event: Event)
      ensures this.event == event
      ensures titulo == event.titulo && descripcion == event.descripcion && ubicacion == event.ubicacion
      ensures selectedDate == event.fecha && selectedTime == event.hora && categoria == event.categoria
      ensures capacidadMaxima == CapacityText(event.capacidadMaxima)
      ensures selectedLicense == FromCodigo(event.licenciaCC)
      ensures tituloError == None && descripcionError == None && ubicacionError == None
    {
      this.event := event;
      titulo, descripcion, ubicacion := event.titulo, event.descripcion, event.ubicacion;
      selectedDate, selectedTime, categoria := event.fecha, event.hora, event.categoria;
      capacidadMaxima := if event.capacidadMaxima.Some? then IntToString(event.capacidadMaxima.value) else "";
      selectedLicense := FromCodigo(event.licenciaCC);
      tituloError, descripcionError, ubicacionError := None, None, None;
    }

    method OnTituloChange(text: string)
      modifies this`titulo, this`tituloError
      ensures titulo == text && tituloError == None
    {
      titulo := text;
      tituloError := None;
    }

    method OnDescripcionChange(text: string)
      modifies this`descripcion, this`descripcionError
      ensures descripcion == text && descripcionError == None
    {
      descripcion := text;
      descripcionError := None;
    }

    method OnUbicacionChange(text: string)
      modifies this`ubicacion, this`ubicacionError
      ensures ubicacion == text && ubicacionError == None
    {
      ubicacion := text;
      ubicacionError := None;
    }

    method OnDatePicked(instant: int)
      modifies this`selectedDate
      ensures selectedDate == instant
    {
      selectedDate := instant;
    }

    method OnTimePicked(hour: nat, minute: nat)
      modifies this`selectedTime
      ensures selectedTime == FormatTime(hour, minute)
    {
      selectedTime := FormatTime(hour, minute);
    }

    method OnCategoryPicked(cat: string)
      modifies this`categoria
      ensures categoria == cat
    {
      categoria := cat;
    }

    method OnLicensePicked(license: CCLicense)
      modifies this`selectedLicense
      ensures selectedLicense == license
    {
      selectedLicense := license;
    }

    method OnCapacityChange(text: string)
      modifies this`capacidadMaxima
      ensures capacidadMaxima == if AcceptsCapacity(text) then text else old(capacidadMaxima)
    {
      if text == [] || AllDigits(text) {
        capacidadMaxima := text;
      }
    }

    /** validateFields: the three blank checks, all of them run; no length limits. */
    method ValidateFields() returns (isValid: bool)
      modifies this`tituloError, this`descripcionError, this`ubicacionError
      ensures tituloError == (if IsBlank(titulo) then Some(TitleRequired) else None)
      ensures descripcionError == (if IsBlank(descripcion) then Some(DescriptionRequired) else None)
      ensures ubicacionError == (if IsBlank(ubicacion) then Some(LocationRequired) else None)
      ensures isValid <==> tituloError == None && descripcionError == None && ubicacionError == None
    {
      isValid := true;
      if IsBlank(titulo) {
        tituloError := Some(TitleRequired);
        isValid := false;
      } else {
        tituloError := None;
      }
      if IsBlank(descripcion) {
        descripcionError := Some(DescriptionRequired);
        isValid := false;
      } else {
        descripcionError := None;
      }
      if IsBlank(ubicacion) {
        ubicacionError := Some(LocationRequired);
        isValid := false;
      } else {
        ubicacionError := None;
      }
    }

    /** The save button: when the three texts are filled in, the edited copy of the
        event that is handed to updateEvent. */
    method Save() returns (updated: Option<Event>)
      modifies this`tituloError, this`descripcionError, this`ubicacionError
      ensures updated.Some? <==> !IsBlank(titulo) && !IsBlank(descripcion) && !IsBlank(ubicacion)
      ensures updated.Some? ==> updated.value == ApplyEdits(event, titulo, descripcion, selectedDate, selectedTime,
                                                            ubicacion, categoria, capacidadMaxima, selectedLicense)
    {
      var valid := ValidateFields();
      updated := None;
      if valid {
        updated := Some(ApplyEdits(event, titulo, descripcion, selectedDate, selectedTime,
                                   ubicacion, categoria, capacidadMaxima, selectedLicense));
      }
    }
  }

  /** Saving an untouched form gives back the event itself when its texts are already
      trimmed, its capacity fits an Int and its license code is one of the six. */
  lemma UntouchedSaveIsIdentity(event: Event)
    requires Trim(event.titulo) == event.titulo && Trim(event.descripcion) == event.descripcion
    requires Trim(event.ubicacion) == event.ubicacion
    requires event.capacidadMaxima.Some? ==> IntMin <= event.capacidadMaxima.value <= IntMax
    requires exists l :: Codigo(l) == event.licenciaCC
    ensures ApplyEdits(event, event.titulo, event.descripcion, event.fecha, event.hora, event.ubicacion, event.categoria,
                       CapacityText(event.capacidadMaxima), FromCodigo(event.licenciaCC)) == event
  {
    var l :| Codigo(l) == event.licenciaCC;
    FromCodigoRoundTrip(l);
    CapacityTextReadsBack(event.capacidadMaxima);
  }

  /** An unknown license code is replaced by CC BY's on save. */
  lemma UnknownLicenseBecomesCcBy(event: Event, titulo: string, descripcion: string, fecha: int, hora: string,
                                  ubicacion: string, categoria: string, capacidad: string)
    requires forall l: CCLicense :: Codigo(l) != event.licenciaCC
    ensures ApplyEdits(event, titulo, descripcion, fecha, hora, ubicacion, categoria, capacidad,
                       FromCodigo(event.licenciaCC)).licenciaCC == Codigo(CcBy)
    ensures Codigo(CcBy) != event.licenciaCC
  {
    FromCodigoFallback(event.licenciaCC);
  }
}
