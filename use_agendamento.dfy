/**
 * The public booking controller (`useAgendamento`): the wizard's step, its flags, the
 * selected professional, date and modality, the slot list and the form values.
 *
 * Each handler is specified by a transition on `HookState`; the class `Agendamento`
 * holds the same state in fields and its methods are proved to perform exactly those
 * transitions. The 500 ms slot fetch and the 1500 ms submission are split into the call
 * that starts them and the completion that the timer later delivers; the state counts
 * the ones still in flight.
 */
module UseAgendamento {
  import opened Wrappers
  import opened Calendar
  import opened Schema
  import opened BookingTypes

  /** The dependency list of the slot-fetch effect: `[selectedDate, selectedProfissional, modalidade]`. */
  datatype Deps = Deps(date: Option<Day>, profissional: Option<Profissional>, modalidade: Option<Modalidade>)

  datatype HookState = HookState(
    isSubmitting: bool,
    isSuccess: bool,
    currentStep: int,
    selectedDate: Option<Day>,
    selectedProfissional: Option<Profissional>,
    modalidade: Option<Modalidade>,
    horariosDisponiveis: seq<HorarioDisponivel>,
    profissionais: seq<Profissional>,
    especialidades: seq<string>,
    convenios: seq<string>,
    form: Values,
    effectDeps: Deps,       // the dependencies the slot effect last ran with
    pendingFetches: nat,    // slot fetches whose delay has not yet elapsed
    pendingSubmits: nat)    // submissions whose delay has not yet elapsed

  /** `useForm`'s `defaultValues`, which `form.reset()` restores. */
  const FormDefaults: Values := map["observacoes" := Text("")]

  const Especialidades: seq<string> := [
    "Clínica Geral", "Cardiologia", "Dermatologia", "Ginecologia", "Neurologia",
    "Oftalmologia", "Ortopedia", "Pediatria", "Psiquiatria"
  ]

  const Convenios: seq<string> := ["Unimed", "Bradesco Saúde", "SulAmérica", "Amil", "Particular"]

  /** The professional directory the mount effect loads (biographies abridged). */
  const Directory: seq<Profissional> := [
    Profissional("1", "Dra. Rochelle Marquetto", "Psiquiatria", Some("CREMERS: 39448 | RQE 43138"),
      Some("/lovable-uploads/c34a8ed3-b933-4a34-9758-66f764adb5ef.png"), Some("CEO e Responsável técnica (medicina) da Pontual Psiquiatria.")),
    Profissional("2", "Dr. Carlos Silva", "Neurologia", Some("CRM: 56789"), None,
      Some("Especialista em neurologia com 15 anos de experiência.")),
    Profissional("3", "Dra. Ana Santos", "Cardiologia", Some("CRM: 45678"), None,
      Some("Cardiologista com experiência em procedimentos avançados."))
  ]

  /** The slots every completed fetch delivers, whatever the date, professional and modality. */
  const SlotCatalogue: seq<HorarioDisponivel> := [
    HorarioDisponivel("08:00", true),
    HorarioDisponivel("09:00", true),
    HorarioDisponivel("10:00", true),
    HorarioDisponivel("11:00", true),
    HorarioDisponivel("12:00", false),
    HorarioDisponivel("13:00", true),
    HorarioDisponivel("14:00", true),
    HorarioDisponivel("15:00", false),
    HorarioDisponivel("16:00", true),
    HorarioDisponivel("17:00", true)
  ]

  /** The state cells' initial values (before the mount effect has run). */
  const Initial: HookState :=
    HookState(false, false, 1, None, None, None, [], [], [], [], FormDefaults, Deps(None, None, None), 0, 0)

  /** The mount effect: the specialties, insurers and professionals are loaded. */
  function LoadData(s: HookState): HookState {
    s.(especialidades := Especialidades, convenios := Convenios, profissionais := Directory)
  }

  /** `profissionais.find(p => p.id === id)`. */
  function Find(ps: seq<Profissional>, id: string): (r: Option<Profissional>)
    ensures r.None? <==> forall p :: p in ps ==> p.id != id
    ensures r.Some? ==> exists i :: (0 <= i < |ps| && ps[i] == r.value && r.value.id == id
      && forall j :: 0 <= j < i ==> ps[j].id != id)
  {
    if ps == [] then None
    else if ps[0].id == id then Some(ps[0])
    else
      var r := Find(ps[1..], id);
      assert r.Some? ==> exists i :: (0 <= i < |ps| && ps[i] == r.value && r.value.id == id
        && forall j :: 0 <= j < i ==> ps[j].id != id) by {
        if r.Some? {
          var i :| 0 <= i < |ps[1..]| && ps[1..][i] == r.value && r.value.id == id
            && forall j :: 0 <= j < i ==> ps[1..][j].id != id;
          assert ps[i + 1] == r.value;
          assert forall j :: 0 <= j < i + 1 ==> ps[j].id != id by {
            forall j | 0 <= j < i + 1 ensures ps[j].id != id {
              if j > 0 { assert ps[j] == ps[1..][j - 1]; }
            }
          }
        }
      }
      r
  }

  /** `handleProfissionalSelect(id)`. */
  function SelectProfissional(s: HookState, id: string): HookState {
    match Find(s.profissionais, id)
    case None => s
    case Some(p) =>
      s.(selectedProfissional := Some(p),
         form := s.form["profissional" := Text(p.id)]["especialidade" := Text(p.especialidade)],
         currentStep := 2)
  }

  /** `handleDateSelect(date)`: an undefined date is ignored; the slot list is left as it is. */
  function SelectDate(s: HookState, date: Option<Day>): HookState {
    match date
    case None => s
    case Some(d) => s.(selectedDate := Some(d), form := s.form["data" := Date(d)])
  }

  /** `handleModalidadeSelect(value)`: the slot list is left as it is. */
  function SelectModalidade(s: HookState, m: Modalidade): HookState {
    s.(modalidade := Some(m), form := s.form["modalidade" := Text(m.Name())])
  }

  /** `handleHorarioSelect(horario)`: stored without looking at the slot's availability. */
  function SelectHorario(s: HookState, horario: string): HookState {
    s.(form := s.form["horario" := Text(horario)])
  }

  /** `goToNextStep`: no upper bound. */
  function NextStep(s: HookState): HookState {
    s.(currentStep := s.currentStep + 1)
  }

  /** `goToPrevStep`: no lower bound. */
  function PrevStep(s: HookState): HookState {
    s.(currentStep := s.currentStep - 1)
  }

  /** The current values of the slot effect's dependencies. */
  function DepsOf(s: HookState): Deps {
    Deps(s.selectedDate, s.selectedProfissional, s.modalidade)
  }

  /** All three dependencies are set. */
  predicate Complete(d: Deps) {
    d.date.Some? && d.profissional.Some? && d.modalidade.Some?
  }

  /**
   * The slot effect, run after a render: when its dependencies differ from the last run
   * it runs again, and starts a fetch if all three are set. No earlier fetch is cancelled.
   */
  function SlotEffect(s: HookState): HookState {
    var deps := DepsOf(s);
    if deps == s.effectDeps then s
    else if Complete(deps) then s.(effectDeps := deps, pendingFetches := s.pendingFetches + 1)
    else s.(effectDeps := deps)
  }

  /** A fetch's delay elapses: its slots replace the list, whatever the selection is by now. */
  function CompleteFetch(s: HookState): HookState
    requires s.pendingFetches > 0
  {
    s.(horariosDisponiveis := SlotCatalogue, pendingFetches := s.pendingFetches - 1)
  }

  /** `handleSubmit(data)` up to its await. */
  function StartSubmit(s: HookState): HookState {
    s.(isSubmitting := true, pendingSubmits := s.pendingSubmits + 1)
  }

  /** The submission's await ends, successfully (`ok`) or by throwing. */
  function CompleteSubmit(s: HookState, ok: bool): HookState
    requires s.pendingSubmits > 0
  {
    var done := s.(isSubmitting := false, pendingSubmits := s.pendingSubmits - 1);
    if ok then done.(form := FormDefaults, isSuccess := true) else done
  }

  /** `resetForm`: the slot list is not cleared. */
  function Reset(s: HookState): HookState {
    s.(isSuccess := false, currentStep := 1, selectedProfissional := None, selectedDate := None,
       modalidade := None, form := FormDefaults)
  }

  // What the handlers promise.

  /**
   * Selecting a listed id selects the first professional with that id, writes its id and
   * specialty into the form and moves to step 2; an unlisted id changes nothing.
   */
  lemma SelectProfissionalOutcome(s: HookState, id: string)
    ensures (forall p :: p in s.profissionais ==> p.id != id) ==> SelectProfissional(s, id) == s
    ensures (exists p :: p in s.profissionais && p.id == id) ==>
      var r := SelectProfissional(s, id);
      && r.selectedProfissional.Some? && r.selectedProfissional.value in s.profissionais
      && r.selectedProfissional.value.id == id
      && r.form == s.form["profissional" := Text(id)]["especialidade" := Text(r.selectedProfissional.value.especialidade)]
      && r.currentStep == 2
      && r == s.(selectedProfissional := r.selectedProfissional, form := r.form, currentStep := 2)
  {
  }

  /** A fetch starts only when date, professional and modality are all set, and always when they have just become so. */
  lemma SlotEffectStartsFetch(s: HookState)
    ensures SlotEffect(s).pendingFetches > s.pendingFetches ==> Complete(DepsOf(s))
    ensures Complete(DepsOf(s)) && DepsOf(s) != s.effectDeps ==> SlotEffect(s).pendingFetches == s.pendingFetches + 1
    ensures SlotEffect(s).horariosDisponiveis == s.horariosDisponiveis
  {
  }

  /** The catalogue has ten hourly slots from 08:00 to 17:00, of which only 12:00 and 15:00 are taken. */
  lemma CatalogueShape()
    ensures |SlotCatalogue| == 10
    ensures forall i :: 0 <= i < 10 ==> SlotCatalogue[i].hora == ["08:00", "09:00", "10:00", "11:00", "12:00",
      "13:00", "14:00", "15:00", "16:00", "17:00"][i]
    ensures forall slot :: slot in SlotCatalogue ==> (!slot.disponivel <==> slot.hora == "12:00" || slot.hora == "15:00")
  {
  }

  /**
   * A successful submission restores the form's defaults and sets isSuccess; a failed one
   * keeps both; either way isSubmitting is false afterwards. Nothing else changes.
   */
  lemma SubmitOutcome(s: HookState, ok: bool)
    requires s.pendingSubmits > 0
    ensures !CompleteSubmit(s, ok).isSubmitting
    ensures ok ==> CompleteSubmit(s, ok).isSuccess && CompleteSubmit(s, ok).form == FormDefaults
    ensures !ok ==> CompleteSubmit(s, ok).isSuccess == s.isSuccess && CompleteSubmit(s, ok).form == s.form
    ensures CompleteSubmit(s, ok).currentStep == s.currentStep
      && CompleteSubmit(s, ok).horariosDisponiveis == s.horariosDisponiveis
  {
  }

  /** resetForm returns to step 1 with nothing selected and the default form, but keeps the slot list. */
  lemma ResetOutcome(s: HookState)
    ensures var r := Reset(s);
      && !r.isSuccess && r.currentStep == 1
      && r.selectedProfissional.None? && r.selectedDate.None? && r.modalidade.None?
      && r.form == FormDefaults
      && r.horariosDisponiveis == s.horariosDisponiveis
  {
  }

  /**
   * An undefined date changes nothing; a defined one becomes the selected date and the
   * form's date alike, and nothing else changes: the slot list stays as it was.
   */
  lemma DateSelectOutcome(s: HookState, date: Option<Day>)
    ensures date.None? ==> SelectDate(s, date) == s
    ensures date.Some? ==>
      var r := SelectDate(s, date);
      && r.selectedDate == date && "data" in r.form && r.form["data"] == Date(date.value)
      && r == s.(selectedDate := date, form := r.form)
      && (forall k :: k != "data" ==> (k in r.form <==> k in s.form))
      && (forall k :: k in s.form && k != "data" ==> r.form[k] == s.form[k])
  {
  }

  /** After a modality is chosen the state and the form name the same modality; the slot list stays. */
  lemma ModalidadeSelectOutcome(s: HookState, m: Modalidade)
    ensures var r := SelectModalidade(s, m);
      && r.modalidade == Some(m)
      && "modalidade" in r.form && r.form["modalidade"] == Text(r.modalidade.value.Name())
      && r.horariosDisponiveis == s.horariosDisponiveis && r.currentStep == s.currentStep
  {
  }

  /** Any hour is stored, an unavailable one of the catalogue included; nothing but the form's hour changes. */
  lemma HorarioSelectOutcome(s: HookState, horario: string)
    ensures var r := SelectHorario(s, horario);
      && "horario" in r.form && r.form["horario"] == Text(horario)
      && r == s.(form := s.form["horario" := Text(horario)])
    ensures HorarioDisponivel("12:00", false) in SlotCatalogue
      && SelectHorario(s, "12:00").form["horario"] == Text("12:00")
  {
    assert SlotCatalogue[4] == HorarioDisponivel("12:00", false);
  }

  /** Next and previous move the step by exactly one, with no bound, and undo each other. */
  lemma StepsInverse(s: HookState)
    ensures NextStep(s).currentStep == s.currentStep + 1 && PrevStep(s).currentStep == s.currentStep - 1
    ensures PrevStep(NextStep(s)) == s && NextStep(PrevStep(s)) == s
    ensures s.currentStep == 3 ==> NextStep(s).currentStep == 4
    ensures s.currentStep == 1 ==> PrevStep(s).currentStep == 0
  {
  }

  /** The hook's state cells and its handlers. */
  class Agendamento {
    var isSubmitting: bool
    var isSuccess: bool
    var currentStep: int
    var selectedDate: Option<Day>
    var selectedProfissional: Option<Profissional>
    var modalidade: Option<Modalidade>
    var horariosDisponiveis: seq<HorarioDisponivel>
    var profissionais: seq<Profissional>
    var especialidades: seq<string>
    var convenios: seq<string>
    var form: Values
    var effectDeps: Deps
    var pendingFetches: nat
    var pendingSubmits: nat

    /** All the cells at once. */
    function State(): HookState
      reads this
    {
      HookState(isSubmitting, isSuccess, currentStep, selectedDate, selectedProfissional, modalidade,
        horariosDisponiveis, profissionais, especialidades, convenios, form, effectDeps,
        pendingFetches, pendingSubmits)
    }

    /** The `useState` initial values: step 1, no flags, nothing selected, no slots. */
    constructor ()
      ensures State() == Initial
      ensures currentStep == 1 && !isSuccess && !isSubmitting
      ensures selectedProfissional.None? && selectedDate.None? && modalidade.None? && horariosDisponiveis == []
    {
      isSubmitting, isSuccess, currentStep := false, false, 1;
      selectedDate, selectedProfissional, modalidade := None, None, None;
      horariosDisponiveis, profissionais, especialidades, convenios := [], [], [], [];
      form := FormDefaults;
      effectDeps := Deps(None, None, None);
      pendingFetches, pendingSubmits := 0, 0;
    }

    /** The mount effect. */
    method LoadInitialData()
      modifies this
      ensures State() == LoadData(old(State()))
    {
      especialidades := Especialidades;
      convenios := Convenios;
      profissionais := Directory;
    }

    method HandleProfissionalSelect(profissionalId: string)
      modifies this
      ensures State() == SelectProfissional(old(State()), profissionalId)
    {
      var found := Find(profissionais, profissionalId);
      if found.Some? {
        var p := found.value;
        selectedProfissional := Some(p);
        form := form["profissional" := Text(p.id)];
        form := form["especialidade" := Text(p.especialidade)];
        currentStep := 2;
      }
    }

    method HandleDateSelect(date: Option<Day>)
      modifies this
      ensures State() == SelectDate(old(State()), date)
    {
      if date.Some? {
        selectedDate := date;
        form := form["data" := Date(date.value)];
      }
    }

    method HandleModalidadeSelect(value: Modalidade)
      modifies this
      ensures State() == SelectModalidade(old(State()), value)
    {
      modalidade := Some(value);
      form := form["modalidade" := Text(value.Name())];
    }

    method HandleHorarioSelect(horario: string)
      modifies this
      ensures State() == SelectHorario(old(State()), horario)
    {
      form := form["horario" := Text(horario)];
    }

    method GoToNextStep()
      modifies this
      ensures State() == NextStep(old(State()))
    {
      currentStep := currentStep + 1;
    }

    method GoToPrevStep()
      modifies this
      ensures State() == PrevStep(old(State()))
    {
      currentStep := currentStep - 1;
    }

    /** The slot effect; `fetchHorariosDisponiveis` is called (and its delay begins) when all deps are set. */
    method RunSlotEffect()
      modifies this
      ensures State() == SlotEffect(old(State()))
    {
      var deps := Deps(selectedDate, selectedProfissional, modalidade);
      if deps != effectDeps {
        effectDeps := deps;
        if deps.date.Some? && deps.profissional.Some? && deps.modalidade.Some? {
          pendingFetches := pendingFetches + 1;
        }
      }
    }

    /** `fetchHorariosDisponiveis` after its delay. */
    method FetchHorariosDisponiveisResolves()
      requires pendingFetches > 0
      modifies this
      ensures State() == CompleteFetch(old(State()))
    {
      horariosDisponiveis := SlotCatalogue;
      pendingFetches := pendingFetches - 1;
    }

    method HandleSubmit()
      modifies this
      ensures State() == StartSubmit(old(State()))
    {
      isSubmitting := true;
      pendingSubmits := pendingSubmits + 1;
    }

    /** `handleSubmit` after its delay: the try block's end, or the catch, then the finally. */
    method HandleSubmitResolves(ok: bool)
      requires pendingSubmits > 0
      modifies this
      ensures State() == CompleteSubmit(old(State()), ok)
    {
      if ok {
        form := FormDefaults;
        isSuccess := true;
      }
      isSubmitting := false;
      pendingSubmits := pendingSubmits - 1;
    }

    method ResetForm()
      modifies this
      ensures State() == Reset(old(State()))
    {
      isSuccess := false;
      currentStep := 1;
      selectedProfissional := None;
      selectedDate := None;
      modalidade := None;
      form := FormDefaults;
    }
  }
}
