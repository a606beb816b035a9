/**
 * The public booking page (`PublicAgendamentoPage`) wired to its controller: which view
 * each state shows, which user intents that view offers, and what each intent does.
 * Timer completions arrive as events of their own. Under this wiring every reachable
 * state keeps the invariant `Inv`: the step stays within 1..3, at most one submission is
 * in flight, and on the personal-data step the wizard's part of the booking is complete.
 */
module PublicAgendamentoPage {
  import opened Wrappers
  import opened Calendar
  import opened Schema
  import opened BookingTypes
  import opened UseAgendamento
  import DateTimeSelector

  /** The step indicator always has three steps. */
  const TotalSteps: int := 3

  /** What the page's main area shows. */
  datatype View = SuccessView | ProfessionalStep | DateTimeStep | PersonalDataStep | NoStep

  /** The success view replaces everything; otherwise the step decides, and step 2 needs a professional. */
  function ViewOf(s: HookState): View {
    if s.isSuccess then SuccessView
    else if s.currentStep == 1 then ProfessionalStep
    else if s.currentStep == 2 && s.selectedProfissional.Some? then DateTimeStep
    else if s.currentStep == 3 then PersonalDataStep
    else NoStep
  }

  /** `form.getValues("horario")`, as the views read it. */
  function SelectedHorario(form: Values): Option<string> {
    if "horario" in form && form["horario"].Text? then Some(form["horario"].text) else None
  }

  /** The free-text inputs of the personal-data form (the insurer is a select). */
  const TextInputs: seq<string> := ["nome", "email", "telefone", "observacoes"]

  /** A user intent or a timer completion. */
  datatype UiEvent =
    | ChooseProfessional(id: string)                          // a card on step 1
    | ChooseDay(day: Option<Day>, now: int, horizon: int)     // the calendar; None deselects
    | ChooseModality(m: Modalidade)                           // a modality button
    | ClickSlot(index: int)                                   // a slot button
    | ClickContinue
    | ClickBack
    | EnterText(field: string, text: string)                  // typing into a personal-data input
    | ChooseConvenio(convenio: string)                        // the insurer select
    | ClickConfirm
    | ClickNewBooking                                         // the success view's button
    | SlotsArrive                                             // a slot fetch's delay elapses
    | SubmitSettles(ok: bool)                                 // the submission's delay elapses

  /** What an event does when the current view offers it; anything else leaves the state as it is. */
  function Apply(s: HookState, e: UiEvent, isEmail: string -> bool): HookState {
    var view := ViewOf(s);
    match e
    case ChooseProfessional(id) =>
      if view == ProfessionalStep then SelectProfissional(s, id) else s
    case ChooseDay(day, now, horizon) =>
      if view != DateTimeStep then s
      else if day.Some? && DateTimeSelector.DayDisabled(day.value, now, horizon) then s
      else SelectDate(s, day)
    case ChooseModality(m) =>
      if view == DateTimeStep then SelectModalidade(s, m) else s
    case ClickSlot(i) =>
      if view == DateTimeStep
        && DateTimeSelector.SlotAreaOf(s.selectedDate, s.modalidade, s.horariosDisponiveis) == DateTimeSelector.Grid
        && 0 <= i < |s.horariosDisponiveis|
      then
        match DateTimeSelector.SlotClick(s.horariosDisponiveis[i])
        case None => s
        case Some(hora) => NextStep(SelectHorario(s, hora))
      else s
    case ClickContinue =>
      if view == DateTimeStep && DateTimeSelector.ContinueEnabled(s.selectedDate, s.modalidade, SelectedHorario(s.form))
      then NextStep(s) else s
    case ClickBack =>
      if view == DateTimeStep || view == PersonalDataStep then PrevStep(s) else s
    case EnterText(field, text) =>
      if view == PersonalDataStep && field in TextInputs then s.(form := s.form[field := Text(text)]) else s
    case ChooseConvenio(c) =>
      if view == PersonalDataStep && c in s.convenios then s.(form := s.form["convenio" := Text(c)]) else s
    case ClickConfirm =>
      if view == PersonalDataStep && !s.isSubmitting && Valid(BookingSchema, s.form, isEmail) then StartSubmit(s) else s
    case ClickNewBooking =>
      if view == SuccessView then Reset(s) else s
    case SlotsArrive =>
      if s.pendingFetches > 0 then CompleteFetch(s) else s
    case SubmitSettles(ok) =>
      if s.pendingSubmits > 0 then CompleteSubmit(s, ok) else s
  }

  /** One event, followed by the render and the slot effect it triggers. */
  function Step(s: HookState, e: UiEvent, isEmail: string -> bool): HookState {
    SlotEffect(Apply(s, e, isEmail))
  }

  /** The page right after mounting: the data is loaded and the slot effect has run with nothing selected. */
  const Start: HookState := LoadData(Initial)

  /** The state after a sequence of events. */
  function Run(s: HookState, events: seq<UiEvent>, isEmail: string -> bool): HookState
    decreases |events|
  {
    if events == [] then s else Run(Step(s, events[0], isEmail), events[1..], isEmail)
  }

  // The invariant of every reachable state.

  /** The form holds what the wizard selected. */
  predicate FormAgrees(s: HookState) {
    && (s.selectedProfissional.Some? ==>
          && s.form.Keys >= {"profissional", "especialidade"}
          && s.form["profissional"] == Text(s.selectedProfissional.value.id)
          && s.form["especialidade"] == Text(s.selectedProfissional.value.especialidade))
    && (s.selectedDate.Some? ==> "data" in s.form && s.form["data"] == Date(s.selectedDate.value))
    && (s.modalidade.Some? ==> "modalidade" in s.form && s.form["modalidade"] == Text(s.modalidade.value.Name()))
  }

  /** A stored hour is one the catalogue offers as available. */
  predicate HorarioBookable(form: Values) {
    "horario" in form ==> exists slot :: slot in SlotCatalogue && slot.disponivel && form["horario"] == Text(slot.hora)
  }

  /** Every form value except the date is a string. */
  predicate TextOutsideData(form: Values) {
    forall k :: k in form && k != "data" ==> form[k].Text?
  }

  /** The invariant, apart from the slot effect having run for the current selection. */
  predicate InvCore(s: HookState) {
    && 1 <= s.currentStep <= TotalSteps
    && s.pendingSubmits <= 1
    && (s.isSubmitting <==> s.pendingSubmits == 1)
    && (s.horariosDisponiveis == [] || s.horariosDisponiveis == SlotCatalogue)
    && s.profissionais == Directory
    && s.convenios == Convenios
    && (s.selectedProfissional.Some? ==> s.selectedProfissional.value in Directory)
    && (s.currentStep >= 2 ==> s.selectedProfissional.Some?)
    && (!s.isSuccess ==> FormAgrees(s))
    && (!s.isSuccess && s.currentStep == 3 ==>
          s.selectedDate.Some? && s.modalidade.Some? && SelectedHorario(s.form).Some?)
    && HorarioBookable(s.form)
    && TextOutsideData(s.form)
  }

  predicate Inv(s: HookState) {
    InvCore(s) && s.effectDeps == DepsOf(s)
  }

  lemma StartInv()
    ensures Inv(Start)
    ensures ViewOf(Start) == ProfessionalStep
  {
  }

  /** The slot effect only records its dependencies and counts a fetch. */
  lemma SlotEffectInv(s: HookState)
    requires InvCore(s)
    ensures Inv(SlotEffect(s))
  {
    var t := SlotEffect(s);
    assert t == s.(effectDeps := DepsOf(s), pendingFetches := t.pendingFetches);
    InvCoreCounters(s, DepsOf(s), t.pendingFetches);
  }

  /** The invariant's core does not look at the effect's record or the fetch count. */
  lemma InvCoreCounters(s: HookState, deps: Deps, fetches: nat)
    requires InvCore(s)
    ensures InvCore(s.(effectDeps := deps, pendingFetches := fetches))
  {
  }

  /** Choosing a professional on step 1 selects one from the directory and opens step 2 with the form filled in. */
  lemma ChooseProfessionalInv(s: HookState, id: string)
    requires Inv(s) && ViewOf(s) == ProfessionalStep
    ensures InvCore(SelectProfissional(s, id))
  {
    SelectProfissionalOutcome(s, id);
  }

  /** The calendar and the modality buttons keep the form in step with the selection. */
  lemma ChooseDayOrModalityInv(s: HookState, day: Option<Day>, m: Modalidade)
    requires Inv(s) && ViewOf(s) == DateTimeStep
    ensures InvCore(SelectDate(s, day))
    ensures InvCore(SelectModalidade(s, m))
  {
  }

  /** An available slot of the grid records a catalogue hour and opens step 3. */
  lemma ClickSlotInv(s: HookState, i: int)
    requires Inv(s) && ViewOf(s) == DateTimeStep
    requires DateTimeSelector.SlotAreaOf(s.selectedDate, s.modalidade, s.horariosDisponiveis) == DateTimeSelector.Grid
    requires 0 <= i < |s.horariosDisponiveis| && s.horariosDisponiveis[i].disponivel
    ensures InvCore(NextStep(SelectHorario(s, s.horariosDisponiveis[i].hora)))
  {
    var slot := s.horariosDisponiveis[i];
    assert slot in SlotCatalogue;
    var t := NextStep(SelectHorario(s, slot.hora));
    assert HorarioBookable(t.form);
    assert SelectedHorario(t.form) == Some(slot.hora);
  }

  /** Continue leaves step 2 only with date, modality and hour set; Back never leaves step 1. */
  lemma ContinueOrBackInv(s: HookState)
    requires Inv(s)
    ensures ViewOf(s) == DateTimeStep && DateTimeSelector.ContinueEnabled(s.selectedDate, s.modalidade, SelectedHorario(s.form))
      ==> InvCore(NextStep(s))
    ensures ViewOf(s) == DateTimeStep || ViewOf(s) == PersonalDataStep ==> InvCore(PrevStep(s))
  {
  }

  /** The form keys the wizard's own steps write. */
  const WizardKeys: set<string> := {"profissional", "especialidade", "data", "modalidade", "horario"}

  /** The personal-data inputs write none of the wizard's keys. */
  lemma {:induction false} PersonalFieldsOutsideWizard(field: string)
    requires field in TextInputs || field == "convenio"
    ensures field !in WizardKeys
  {
    assert field == "nome" || field == "email" || field == "telefone" || field == "observacoes" || field == "convenio";
  }

  /** Writing a string under a key the wizard does not use keeps what the invariant says about the form. */
  lemma FormWriteOutsideWizard(s: HookState, field: string, text: string)
    requires InvCore(s) && field !in WizardKeys
    ensures InvCore(s.(form := s.form[field := Text(text)]))
  {
    var t := s.(form := s.form[field := Text(text)]);
    assert forall k :: k in WizardKeys ==> (k in t.form <==> k in s.form);
    assert forall k :: k in WizardKeys && k in s.form ==> t.form[k] == s.form[k];
    assert HorarioBookable(t.form);
    assert SelectedHorario(t.form) == SelectedHorario(s.form);
  }

  /** Typing into a personal-data input or choosing an insurer keeps the invariant. */
  lemma EnterFieldInv(s: HookState, field: string, text: string)
    requires Inv(s) && ViewOf(s) == PersonalDataStep
    requires field in TextInputs || field == "convenio"
    ensures InvCore(s.(form := s.form[field := Text(text)]))
  {
    PersonalFieldsOutsideWizard(field);
    FormWriteOutsideWizard(s, field, text);
  }

  /** Confirm starts a submission only when none is in flight. */
  lemma ConfirmInv(s: HookState)
    requires Inv(s) && ViewOf(s) == PersonalDataStep && !s.isSubmitting
    ensures InvCore(StartSubmit(s))
  {
  }

  /** A new booking starts over from step 1 with the default form. */
  lemma NewBookingInv(s: HookState)
    requires Inv(s) && ViewOf(s) == SuccessView
    ensures InvCore(Reset(s))
  {
  }

  /** The timers deliver the catalogue or settle the one submission in flight. */
  lemma TimersInv(s: HookState, ok: bool)
    requires Inv(s)
    ensures s.pendingFetches > 0 ==> InvCore(CompleteFetch(s))
    ensures s.pendingSubmits > 0 ==> InvCore(CompleteSubmit(s, ok))
  {
  }

  /** Every intent a view offers, and every timer completion, keeps the invariant. */
  lemma StepInv(s: HookState, e: UiEvent, isEmail: string -> bool)
    requires Inv(s)
    ensures Inv(Step(s, e, isEmail))
  {
    ApplyInv(s, e, isEmail);
    SlotEffectInv(Apply(s, e, isEmail));
  }

  /** An event keeps the invariant's core, before the slot effect runs. */
  lemma ApplyInv(s: HookState, e: UiEvent, isEmail: string -> bool)
    requires Inv(s)
    ensures InvCore(Apply(s, e, isEmail))
  {
    if WizardEvent(e) {
      WizardEventInv(s, e, isEmail);
    } else {
      FormEventInv(s, e, isEmail);
    }
  }

  /** The intents of the first two steps. */
  predicate WizardEvent(e: UiEvent) {
    e.ChooseProfessional? || e.ChooseDay? || e.ChooseModality? || e.ClickSlot? || e.ClickContinue? || e.ClickBack?
  }

  /** Choosing, clicking a slot, Continue and Back keep the invariant's core. */
  lemma WizardEventInv(s: HookState, e: UiEvent, isEmail: string -> bool)
    requires Inv(s) && WizardEvent(e)
    ensures InvCore(Apply(s, e, isEmail))
  {
    var view := ViewOf(s);
    if e.ChooseProfessional? {
      if view == ProfessionalStep { ChooseProfessionalInv(s, e.id); }
    } else if e.ChooseDay? {
      if view == DateTimeStep { ChooseDayOrModalityInv(s, e.day, Online); }
    } else if e.ChooseModality? {
      if view == DateTimeStep { ChooseDayOrModalityInv(s, None, e.m); }
    } else if e.ClickSlot? {
      var i := e.index;
      if view == DateTimeStep
        && DateTimeSelector.SlotAreaOf(s.selectedDate, s.modalidade, s.horariosDisponiveis) == DateTimeSelector.Grid
        && 0 <= i < |s.horariosDisponiveis|
        && s.horariosDisponiveis[i].disponivel
      {
        ClickSlotInv(s, i);
      }
    } else {
      ContinueOrBackInv(s);
    }
  }

  /** The personal-data inputs, Confirm, a new booking and the timers keep the invariant's core. */
  lemma FormEventInv(s: HookState, e: UiEvent, isEmail: string -> bool)
    requires Inv(s) && !WizardEvent(e)
    ensures InvCore(Apply(s, e, isEmail))
  {
    var view := ViewOf(s);
    if e.EnterText? {
      if view == PersonalDataStep && e.field in TextInputs { EnterFieldInv(s, e.field, e.text); }
    } else if e.ChooseConvenio? {
      if view == PersonalDataStep { EnterFieldInv(s, "convenio", e.convenio); }
    } else if e.ClickConfirm? {
      if view == PersonalDataStep && !s.isSubmitting { ConfirmInv(s); }
    } else if e.ClickNewBooking? {
      if view == SuccessView { NewBookingInv(s); }
    } else if e.SlotsArrive? {
      TimersInv(s, true);
    } else {
      TimersInv(s, e.ok);
    }
  }

  /** Every state reachable from `s` by events keeps the invariant. */
  lemma {:induction false} RunInv(s: HookState, events: seq<UiEvent>, isEmail: string -> bool)
    requires Inv(s)
    ensures Inv(Run(s, events, isEmail))
    decreases |events|
  {
    if events != [] {
      StepInv(s, events[0], isEmail);
      RunInv(Step(s, events[0], isEmail), events[1..], isEmail);
    }
  }

  /**
   * Whatever the user does and whenever the timers fire, the step stays within 1..3, the
   * page always shows one of its views, and at most one submission is in flight.
   */
  lemma Reachable(events: seq<UiEvent>, isEmail: string -> bool)
    ensures var s := Run(Start, events, isEmail);
      && 1 <= s.currentStep <= TotalSteps
      && ViewOf(s) != NoStep
      && s.pendingSubmits <= 1
  {
    StartInv();
    RunInv(Start, events, isEmail);
  }

  /**
   * On the personal-data step the wizard has filled date, hour, specialty, professional
   * and modality, so confirming succeeds iff the name, email and phone checks hold.
   */
  lemma {:induction false} ConfirmValidity(s: HookState, isEmail: string -> bool)
    requires Inv(s) && ViewOf(s) == PersonalDataStep
    ensures Valid(BookingSchema, s.form, isEmail) <==>
      HasText(s.form, "nome", 3) && HasEmail(s.form, "email", isEmail) && HasText(s.form, "telefone", 10)
  {
    BookingSchemaMeaning(s.form, isEmail);
    ModalidadeAccepted(s.modalidade.value, s.modalidade.value.Name());
  }

  /** Run over two events is the two steps in turn. */
  lemma RunTwo(s: HookState, e1: UiEvent, e2: UiEvent, isEmail: string -> bool)
    ensures Run(s, [e1, e2], isEmail) == Step(Step(s, e1, isEmail), e2, isEmail)
  {
    var s1 := Step(s, e1, isEmail);
    assert [e1, e2][1..] == [e2];
    assert Run(s, [e1, e2], isEmail) == Run(s1, [e2], isEmail);
    assert [e2][1..] == [];
    assert Run(s1, [e2], isEmail) == Run(Step(s1, e2, isEmail), [], isEmail);
  }

  /** A second Confirm while the first submission is in flight starts nothing. */
  lemma DoubleConfirm(s: HookState, isEmail: string -> bool)
    requires s.effectDeps == DepsOf(s) && s.pendingSubmits == 0
    requires ViewOf(s) == PersonalDataStep && !s.isSubmitting && Valid(BookingSchema, s.form, isEmail)
    ensures Run(s, [ClickConfirm, ClickConfirm], isEmail).pendingSubmits == 1
    ensures Run(s, [ClickConfirm, ClickConfirm], isEmail).isSubmitting
  {
    var s1 := StartSubmit(s);
    assert Apply(s, ClickConfirm, isEmail) == s1;
    assert Step(s, ClickConfirm, isEmail) == s1;
    assert Step(s1, ClickConfirm, isEmail) == s1;
    RunTwo(s, ClickConfirm, ClickConfirm, isEmail);
  }

  /** Choosing Dra. Ana Santos on step 1 opens step 2 with her specialty in the form. */
  lemma ChooseAnaSantos(isEmail: string -> bool)
    ensures Step(Start, ChooseProfessional("3"), isEmail).currentStep == 2
    ensures Step(Start, ChooseProfessional("3"), isEmail).selectedProfissional == Some(Directory[2])
    ensures Step(Start, ChooseProfessional("3"), isEmail).form["especialidade"] == Text("Cardiologia")
  {
    assert Find(Directory, "3") == Some(Directory[2]);
    var s1 := SelectProfissional(Start, "3");
    assert Apply(Start, ChooseProfessional("3"), isEmail) == s1;
  }

  /**
   * Once the slots have arrived on step 2, the unavailable 12:00 slot does nothing and
   * the 09:00 slot records its hour and opens step 3.
   */
  lemma SlotClicks(s: HookState, isEmail: string -> bool)
    requires Inv(s) && ViewOf(s) == DateTimeStep && s.selectedDate.Some? && s.modalidade.Some?
    requires s.horariosDisponiveis == SlotCatalogue
    ensures Step(s, ClickSlot(4), isEmail) == s
    ensures Step(s, ClickSlot(1), isEmail).currentStep == 3
    ensures SelectedHorario(Step(s, ClickSlot(1), isEmail).form) == Some("09:00")
  {
    assert Apply(s, ClickSlot(4), isEmail) == s;
    var t := NextStep(SelectHorario(s, "09:00"));
    assert Apply(s, ClickSlot(1), isEmail) == t;
    assert DepsOf(t) == t.effectDeps;
  }
}
