/** HomeScreen: the category chips over the upcoming events, the list they select and
    the count shown above it. */
module HomeScreen {
  import opened Common
  import opened Seqs
  import opened Model
  import opened EventForm
  import opened EventRepo

  const Todos: string := "Todos"

  /** The chips, in order: "Todos" and then eight of the forms' categories. */
  const HomeChips: seq<string> := ["Todos", "General", "Deportes", "Música", "Tecnología", "Arte",
                                   "Educación", "Negocios", "Social"]

  const AvailableSuffix: string := " eventos disponibles"

  /** eventosFiltrados: "Todos" shows the upcoming list as it is; any other chip keeps
      the upcoming events of that category, in their order. */
  function EventosFiltrados(proximos: seq<Event>, selectedFilter: string): (r: seq<Event>)
    ensures selectedFilter == Todos ==> r == proximos
    ensures selectedFilter != Todos ==> forall e :: e in r <==> e in proximos && e.categoria == selectedFilter
    ensures selectedFilter != Todos ==>
      forall e :: multiset(r)[e] == if e.categoria == selectedFilter then multiset(proximos)[e] else 0
    ensures IsSubsequence(r, proximos)
  {
    if selectedFilter == Todos then
      SubsequenceOfItself(proximos);
      proximos
    else
      FilterIsSubsequence(proximos, (e: Event) => e.categoria == selectedFilter);
      FilterMultiplicities(proximos, (e: Event) => e.categoria == selectedFilter);
      Filter(proximos, (e: Event) => e.categoria == selectedFilter)
  }

  /** The line under "Próximos Eventos". */
  function CountLabel(filtered: seq<Event>): string {
    NatToString(|filtered|) + AvailableSuffix
  }

  /** The label starts with the decimal digits of the list's size and nothing else
      before the suffix. */
  lemma CountLabelReadsBack(filtered: seq<Event>)
    ensures var text := CountLabel(filtered);
      && |text| > |AvailableSuffix|
      && text[|text| - |AvailableSuffix|..] == AvailableSuffix
      && AllDigits(text[..|text| - |AvailableSuffix|])
      && DigitsValue(text[..|text| - |AvailableSuffix|]) == |filtered|
  {
    var text := CountLabel(filtered);
    var digits := NatToString(|filtered|);
    assert text[..|text| - |AvailableSuffix|] == digits;
    assert text[|text| - |AvailableSuffix|..] == AvailableSuffix;
    NatToStringValue(|filtered|);
  }

  /** The chips are "Todos" followed by the forms' categories without the last one,
      "Otro". */
  lemma ChipsOmitOtro()
    ensures HomeChips == [Todos] + Categorias[..|Categorias| - 1]
    ensures Categorias[|Categorias| - 1] == "Otro"
    ensures "Otro" in Categorias && "Otro" !in HomeChips
  {
  }

  /** An event of category "Otro" is listed under the "Todos" chip and under no other. */
  lemma OtroOnlyUnderTodos(proximos: seq<Event>, e: Event, chip: string)
    requires e in proximos && e.categoria == "Otro"
    requires chip in HomeChips
    ensures e in EventosFiltrados(proximos, chip) <==> chip == Todos
  {
    ChipsOmitOtro();
  }

  /** On the upcoming list, every chip shows events that have not happened yet, soonest
      first. */
  lemma ChipsKeepUpcomingOrder(snapshot: seq<Event>, now: int, chip: string)
    ensures var r := EventosFiltrados(ProximosEventos(snapshot, now), chip);
      && SortedBy(r, Fecha, true)
      && forall e :: e in r ==> e in snapshot && e.fecha >= now
  {
    var proximos := ProximosEventos(snapshot, now);
    if chip != Todos {
      FilterKeepsSorted(proximos, (e: Event) => e.categoria == chip, Fecha, true);
    }
  }
}
