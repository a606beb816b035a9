/**
 * The staff page for a new appointment (`NovoAgendamentoPage`): its schema, the calendar's
 * disabled rule, and the hour list that a chosen date replaces after a delay.
 */
module NovoAgendamentoPage {
  import opened Wrappers
  import opened Calendar
  import opened Schema
  import BookingTypes

  /** `formSchema`: every string field but the notes needs at least one character. */
  const AppointmentSchema: ObjectSchema := [
    FieldRule("paciente", MinLength(1), Required),
    FieldRule("profissional", MinLength(1), Required),
    FieldRule("data", AnyDate, Required),
    FieldRule("horario", MinLength(1), Required),
    FieldRule("tipo", MinLength(1), Required),
    FieldRule("modalidade", MinLength(1), Required),
    FieldRule("convenio", AnyString, Optional),
    FieldRule("observacoes", AnyString, Optional)
  ]

  /** `defaultValues`. */
  const AppointmentDefaults: Values := map["tipo" := Text(""), "modalidade" := Text(""), "observacoes" := Text("")]

  /** The hours shown before any date is chosen. */
  const InitialHorarios: seq<string> := ["08:00", "09:00", "10:00", "11:00", "14:00", "15:00", "16:00", "17:00"]

  /** The hours every chosen date brings. */
  const DateHorarios: seq<string> := ["08:00", "09:00", "10:30", "11:30", "14:00", "15:30", "16:00", "17:30"]

  /**
   * An appointment is valid iff patient, professional, hour, type and modality are
   * non-empty strings, a date is present, and insurer and notes are absent or strings.
   */
  lemma {:induction false} AppointmentSchemaMeaning(values: Values, isEmail: string -> bool)
    ensures Valid(AppointmentSchema, values, isEmail) <==>
      && HasText(values, "paciente", 1)
      && HasText(values, "profissional", 1)
      && HasDate(values, "data")
      && HasText(values, "horario", 1)
      && HasText(values, "tipo", 1)
      && HasText(values, "modalidade", 1)
      && NoneOrText(values, "convenio")
      && NoneOrText(values, "observacoes")
  {
    var s := AppointmentSchema;
    ValidEight(s[0], s[1], s[2], s[3], s[4], s[5], s[6], s[7], values, isEmail);
    assert RuleHolds(s[0], values, isEmail) == HasText(values, "paciente", 1);
    assert RuleHolds(s[1], values, isEmail) == HasText(values, "profissional", 1);
    assert RuleHolds(s[2], values, isEmail) == HasDate(values, "data");
    assert RuleHolds(s[3], values, isEmail) == HasText(values, "horario", 1);
    assert RuleHolds(s[4], values, isEmail) == HasText(values, "tipo", 1);
    assert RuleHolds(s[5], values, isEmail) == HasText(values, "modalidade", 1);
    assert RuleHolds(s[6], values, isEmail) == NoneOrText(values, "convenio");
    assert RuleHolds(s[7], values, isEmail) == NoneOrText(values, "observacoes");
  }

  /** The defaults are rejected: the type is the empty string and no patient is chosen. */
  lemma DefaultsRejected(isEmail: string -> bool)
    ensures !Valid(AppointmentSchema, AppointmentDefaults, isEmail)
  {
    AppointmentSchemaMeaning(AppointmentDefaults, isEmail);
  }

  /**
   * The staff form takes any non-empty modality, which the public booking schema refuses
   * unless it is "presencial" or "online".
   */
  lemma ModalidadeLooser(values: Values, m: string)
    requires m != "" && m != "presencial" && m != "online"
    requires "modalidade" in values && values["modalidade"] == Text(m)
    ensures HasText(values, "modalidade", 1)
    ensures !HasOption(values, "modalidade", BookingTypes.ModalidadeOptions)
  {
  }

  /** The calendar disables the days whose midnight is before now; Sundays are allowed here. */
  predicate DayDisabled(day: Day, now: int) {
    Midnight(day) < now
  }

  /** Any day from tomorrow on can be picked, whatever its weekday. */
  lemma {:induction false} FutureDaysEnabled(day: Day, now: int)
    requires day > DayOf(now)
    ensures !DayDisabled(day, now)
  {
    DayOfBounds(now);
    assert Midnight(DayOf(now) + 1) <= Midnight(day);
  }

  /** The hours of the two lists: both have eight entries, and a date changes four of them. */
  lemma HorariosLists()
    ensures |InitialHorarios| == 8 && |DateHorarios| == 8
    ensures forall i :: 0 <= i < 8 ==> (InitialHorarios[i] == DateHorarios[i] <==> i in {0, 1, 4, 6})
  {
  }

  /** The page's state: the form values, the hour list and the pending slot timers. */
  class NovoAgendamento {
    var values: Values
    var horariosDisponiveis: seq<string>
    /** `setTimeout` callbacks started by `handleDateChange` and not yet fired. */
    var pendingSlotTimers: nat

    constructor ()
      ensures values == AppointmentDefaults
      ensures horariosDisponiveis == InitialHorarios && pendingSlotTimers == 0
    {
      values := AppointmentDefaults;
      horariosDisponiveis := InitialHorarios;
      pendingSlotTimers := 0;
    }

    /**
     * The calendar's `onSelect`: the date field takes the chosen date (or becomes undefined
     * when the day is deselected), then `handleDateChange` starts a timer for a defined date.
     * The hour list is not touched yet.
     */
    method SelectDate(date: Option<Day>)
      modifies this
      ensures date.Some? ==> values == old(values)["data" := Date(date.value)] && pendingSlotTimers == old(pendingSlotTimers) + 1
      ensures date.None? ==> values == old(values) - {"data"} && pendingSlotTimers == old(pendingSlotTimers)
      ensures horariosDisponiveis == old(horariosDisponiveis)
    {
      match date {
        case None =>
          values := values - {"data"};
        case Some(d) =>
          values := values["data" := Date(d)];
          pendingSlotTimers := pendingSlotTimers + 1;
      }
    }

    /** A slot timer fires: the hour list becomes the fixed list, whichever date started it. */
    method SlotTimerFires()
      requires pendingSlotTimers > 0
      modifies this
      ensures horariosDisponiveis == DateHorarios
      ensures pendingSlotTimers == old(pendingSlotTimers) - 1 && values == old(values)
    {
      horariosDisponiveis := DateHorarios;
      pendingSlotTimers := pendingSlotTimers - 1;
    }

    /** Any field's `onChange` other than the calendar's. */
    method SetValue(key: string, v: Value)
      modifies this
      ensures values == old(values)[key := v]
      ensures horariosDisponiveis == old(horariosDisponiveis) && pendingSlotTimers == old(pendingSlotTimers)
    {
      values := values[key := v];
    }
  }
}
