/**
 * The guards of the date-and-time step (`DateTimeSelector`): which calendar days are
 * disabled, what a slot button does, which slot is highlighted, what the slot area
 * shows and when Continue is enabled. All are expressions over the view's props.
 */
module DateTimeSelector {
  import opened Wrappers
  import opened Calendar
  import opened BookingTypes

  /**
   * The calendar's `disabled` predicate for the day handed to it (its midnight): before
   * the current instant `now`, after `horizon` (the instant three months ahead of now),
   * or a Sunday.
   */
  predicate DayDisabled(day: Day, now: int, horizon: int) {
    Midnight(day) < now || Midnight(day) > horizon || Weekday(day) == 0
  }

  /** A day can be picked iff it is Monday to Saturday and its midnight lies in [now, horizon]. */
  lemma DayEnabledIff(day: Day, now: int, horizon: int)
    ensures !DayDisabled(day, now, horizon) <==>
      1 <= Weekday(day) <= 6 && now <= Midnight(day) <= horizon
  {
  }

  /** Saturdays are not excluded by the weekday rule: inside the window a Saturday can be picked. */
  lemma SaturdayEnabled(day: Day, now: int, horizon: int)
    requires Weekday(day) == 6 && now <= Midnight(day) <= horizon
    ensures !DayDisabled(day, now, horizon)
  {
  }

  /**
   * Today cannot be picked unless the current instant is exactly its midnight, because the
   * calendar compares the day's midnight with the current instant; the next day can be
   * picked when it is not a Sunday and lies before the horizon.
   */
  lemma {:induction false} TodayDisabled(now: int, horizon: int)
    ensures now != Midnight(DayOf(now)) ==> DayDisabled(DayOf(now), now, horizon)
    ensures Weekday(DayOf(now) + 1) != 0 && Midnight(DayOf(now) + 1) <= horizon ==>
      !DayDisabled(DayOf(now) + 1, now, horizon)
  {
    DayOfBounds(now);
  }

  /** What clicking a slot button hands to `onHorarioSelect`: its own hour, and only if it is available. */
  function SlotClick(slot: HorarioDisponivel): (selected: Option<string>)
    ensures selected.Some? <==> slot.disponivel
    ensures selected.Some? ==> selected.value == slot.hora
  {
    if slot.disponivel then Some(slot.hora) else None
  }

  /** `selectedHorario === slot.hora`. */
  predicate Highlighted(selectedHorario: Option<string>, slot: HorarioDisponivel) {
    selectedHorario == Some(slot.hora)
  }

  /** The hours of a slot list are pairwise distinct (they are the buttons' React keys). */
  predicate DistinctHours(slots: seq<HorarioDisponivel>) {
    forall i, j :: 0 <= i < j < |slots| ==> slots[i].hora != slots[j].hora
  }

  /** In a list with distinct hours at most one slot is highlighted, and it is the one whose hour is selected. */
  lemma HighlightUnique(selectedHorario: Option<string>, slots: seq<HorarioDisponivel>, i: int, j: int)
    requires DistinctHours(slots)
    requires 0 <= i < |slots| && 0 <= j < |slots|
    requires Highlighted(selectedHorario, slots[i]) && Highlighted(selectedHorario, slots[j])
    ensures i == j && selectedHorario.value == slots[i].hora
  {
  }

  /** What the slot area under the modality buttons shows. */
  datatype SlotArea = Hidden | Loading | Grid

  function SlotAreaOf(date: Option<Day>, modalidade: Option<Modalidade>, slots: seq<HorarioDisponivel>): (area: SlotArea)
    ensures area != Hidden <==> date.Some? && modalidade.Some?
    ensures area == Grid <==> date.Some? && modalidade.Some? && |slots| > 0
    ensures area == Loading ==> slots == []
  {
    if date.None? || modalidade.None? then Hidden
    else if |slots| > 0 then Grid
    else Loading
  }

  /** Continue is enabled iff date, modality and a non-empty selected hour are set (JavaScript truthiness). */
  predicate ContinueEnabled(date: Option<Day>, modalidade: Option<Modalidade>, selectedHorario: Option<string>) {
    date.Some? && modalidade.Some? && selectedHorario.Some? && selectedHorario.value != ""
  }
}
