/**
 * The professional step (`ProfissionalSelector`): a specialty filter kept in local state
 * and the list of cards it lets through.
 */
module ProfissionalSelector {
  import opened Wrappers
  import opened Lists
  import opened BookingTypes
  import UseAgendamento

  /** The select's value for "all specialties". */
  const AllSpecialties: string := "todas"

  /** The filter the select's `onValueChange` stores for the chosen value. */
  function FilterFor(value: string): (filter: Option<string>)
    ensures filter.None? <==> value == AllSpecialties
    ensures filter.Some? ==> filter.value == value
  {
    if value == AllSpecialties then None else Some(value)
  }

  /** A professional has the given specialty. */
  predicate HasSpecialty(p: Profissional, especialidade: string) {
    p.especialidade == especialidade
  }

  /**
   * `filteredProfissionais`: every professional when the filter is unset (or the empty
   * string, which is falsy); otherwise those of the filtered specialty, in list order.
   */
  function Shown(profissionais: seq<Profissional>, filter: Option<string>): (shown: seq<Profissional>)
    ensures filter.None? || filter.value == "" ==> shown == profissionais
    ensures filter.Some? && filter.value != "" ==>
      forall p :: p in shown <==> p in profissionais && HasSpecialty(p, filter.value)
    ensures IsSubsequence(shown, profissionais)
  {
    if filter.None? || filter.value == "" then
      IsSubsequenceReflexive(profissionais);
      profissionais
    else
      Filter(profissionais, p => HasSpecialty(p, filter.value))
  }

  /** A card is drawn as selected iff its id is the selected professional's id. */
  predicate CardSelected(selected: Option<Profissional>, p: Profissional) {
    selected.Some? && selected.value.id == p.id
  }

  /**
   * Filtering the directory by each of its specialties shows exactly that professional, a
   * specialty nobody has shows nothing, and "todas" shows everyone.
   */
  lemma DirectoryBySpecialty()
    ensures Shown(UseAgendamento.Directory, Some("Psiquiatria")) == [UseAgendamento.Directory[0]]
    ensures Shown(UseAgendamento.Directory, Some("Cardiologia")) == [UseAgendamento.Directory[2]]
    ensures Shown(UseAgendamento.Directory, Some("Neurologia")) == [UseAgendamento.Directory[1]]
    ensures Shown(UseAgendamento.Directory, Some("Pediatria")) == []
    ensures Shown(UseAgendamento.Directory, FilterFor(AllSpecialties)) == UseAgendamento.Directory
  {
    var d := UseAgendamento.Directory;
    assert d == [d[0], d[1], d[2]];
    ShownOfThree(d[0], d[1], d[2], "Psiquiatria");
    ShownOfThree(d[0], d[1], d[2], "Cardiologia");
    ShownOfThree(d[0], d[1], d[2], "Neurologia");
    ShownOfThree(d[0], d[1], d[2], "Pediatria");
  }

  /** A filtered list of three keeps, in order, those of the specialty. */
  lemma ShownOfThree(a: Profissional, b: Profissional, c: Profissional, especialidade: string)
    requires especialidade != ""
    ensures Shown([a, b, c], Some(especialidade)) ==
      (if HasSpecialty(a, especialidade) then [a] else [])
      + (if HasSpecialty(b, especialidade) then [b] else [])
      + (if HasSpecialty(c, especialidade) then [c] else [])
  {
    var keep := p => HasSpecialty(p, especialidade);
    assert [a, b, c][1..] == [b, c] && [b, c][1..] == [c] && [c][1..] == [];
    assert Filter([c], keep) == if keep(c) then [c] else [];
    assert Filter([b, c], keep) == (if keep(b) then [b] else []) + Filter([c], keep);
  }

  /** The selector's local state: the specialty filter. */
  class Selector {
    var filteredEspecialidade: Option<string>

    /** The filter starts unset, so every professional is shown. */
    constructor ()
      ensures filteredEspecialidade.None?
    {
      filteredEspecialidade := None;
    }

    /** The cards currently drawn. */
    function Cards(profissionais: seq<Profissional>): (cards: seq<Profissional>)
      reads this
      ensures IsSubsequence(cards, profissionais)
    {
      Shown(profissionais, filteredEspecialidade)
    }

    /** The select's `onValueChange`. */
    method OnValueChange(value: string)
      modifies this
      ensures filteredEspecialidade == FilterFor(value)
      ensures value == AllSpecialties ==> forall ps :: Cards(ps) == ps
    {
      filteredEspecialidade := if value == AllSpecialties then None else Some(value);
    }
  }
}
