/** The procedure list (`ProcedimentosPage`): search, status colours and status counts. */
module ProcedimentosPage {
  import opened Lists
  import opened Strings

  datatype Procedimento = Procedimento(
    id: int,
    paciente: string,
    procedimento: string,
    data: string,
    status: string,
    observacoes: string,
    fotosAntes: nat,
    fotosDepois: nat)

  const Concluido: string := "Concluído"
  const EmRecuperacao: string := "Em Recuperação"
  const Agendado: string := "Agendado"

  const MockProcedimentos: seq<Procedimento> := [
    Procedimento(1, "João Silva", "Limpeza Facial Profunda", "2024-01-15", Concluido,
      "Procedimento realizado com sucesso", 2, 2),
    Procedimento(2, "Maria Santos", "Peeling Químico", "2024-01-14", EmRecuperacao,
      "Paciente respondendo bem ao tratamento", 3, 1),
    Procedimento(3, "Carlos Mendes", "Laser CO2 Fracionado", "2024-01-13", Agendado,
      "Primeira sessão agendada", 0, 0)
  ]

  /** A procedure matches when the term occurs, ignoring case, in the patient or the procedure name. */
  predicate Matches(p: Procedimento, term: string) {
    ContainsIgnoringCase(p.paciente, term) || ContainsIgnoringCase(p.procedimento, term)
  }

  /** `filteredProcedimentos`. */
  function Filtered(procedimentos: seq<Procedimento>, term: string): (shown: seq<Procedimento>)
    ensures forall p :: p in shown <==> p in procedimentos && Matches(p, term)
    ensures IsSubsequence(shown, procedimentos)
  {
    Filter(procedimentos, p => Matches(p, term))
  }

  /** The empty search shows every procedure, in order. */
  lemma EmptySearchShowsAll(procedimentos: seq<Procedimento>)
    ensures Filtered(procedimentos, "") == procedimentos
  {
    forall p | p in procedimentos ensures Matches(p, "") {
      ContainsEmpty(p.paciente);
    }
    FilterAll(procedimentos, p => Matches(p, ""));
  }

  const Green: string := "bg-green-100 text-green-800"
  const Yellow: string := "bg-yellow-100 text-yellow-800"
  const Blue: string := "bg-blue-100 text-blue-800"
  const Gray: string := "bg-gray-100 text-gray-800"

  /** `getStatusColor`. */
  function StatusColor(status: string): string {
    if status == Concluido then Green
    else if status == EmRecuperacao then Yellow
    else if status == Agendado then Blue
    else Gray
  }

  /** The three known statuses get three different colours, none of them the gray of every other status. */
  lemma StatusColorsDistinct(other: string)
    requires other != Concluido && other != EmRecuperacao && other != Agendado
    ensures StatusColor(Concluido) != StatusColor(EmRecuperacao)
    ensures StatusColor(Concluido) != StatusColor(Agendado)
    ensures StatusColor(EmRecuperacao) != StatusColor(Agendado)
    ensures StatusColor(other) == Gray
    ensures Gray !in {StatusColor(Concluido), StatusColor(EmRecuperacao), StatusColor(Agendado)}
  {
  }

  /** The filter test `p => p.status === status`. */
  function HasStatus(status: string): Procedimento -> bool {
    (p: Procedimento) => p.status == status
  }

  /** The statuses of the list, position by position. */
  function Statuses(procedimentos: seq<Procedimento>): seq<string> {
    if procedimentos == [] then [] else [procedimentos[0].status] + Statuses(procedimentos[1..])
  }

  /** The entries kept by the status filter are as many as the times the status occurs in the list. */
  lemma {:induction false} FilterStatusLength(procedimentos: seq<Procedimento>, status: string)
    ensures |Filter(procedimentos, HasStatus(status))| == Count(Statuses(procedimentos), status)
  {
    if procedimentos != [] {
      var head, tail := procedimentos[0], procedimentos[1..];
      assert procedimentos == [head] + tail;
      FilterAppend([head], tail, HasStatus(status));
      assert ([head.status] + Statuses(tail))[1..] == Statuses(tail);
      FilterStatusLength(tail, status);
    }
  }

  /** `procedimentos.filter(p => p.status === status).length`: how many entries have exactly that status. */
  function StatusCount(procedimentos: seq<Procedimento>, status: string): (n: nat)
    ensures n <= |procedimentos|
    ensures n == Count(Statuses(procedimentos), status)
    ensures n == 0 <==> forall p :: p in procedimentos ==> p.status != status
  {
    FilterStatusLength(procedimentos, status);
    var matching := Filter(procedimentos, HasStatus(status));
    if |matching| == 0 then 0
    else
      assert matching[0] in matching;
      |matching|
  }

  /** The three status cards together never count more procedures than the total card. */
  lemma {:induction false} CountsWithinTotal(procedimentos: seq<Procedimento>)
    ensures StatusCount(procedimentos, Concluido) + StatusCount(procedimentos, EmRecuperacao)
      + StatusCount(procedimentos, Agendado) <= |procedimentos|
  {
    if procedimentos != [] {
      var head, tail := procedimentos[0], procedimentos[1..];
      assert procedimentos == [head] + tail;
      FilterAppend([head], tail, HasStatus(Concluido));
      FilterAppend([head], tail, HasStatus(EmRecuperacao));
      FilterAppend([head], tail, HasStatus(Agendado));
      CountsWithinTotal(tail);
    }
  }

  /** With the mock list each status card shows 1 and the total card 3. */
  lemma MockCounts()
    ensures StatusCount(MockProcedimentos, Concluido) == 1
    ensures StatusCount(MockProcedimentos, EmRecuperacao) == 1
    ensures StatusCount(MockProcedimentos, Agendado) == 1
    ensures |MockProcedimentos| == 3
  {
    var m := MockProcedimentos;
    assert m == [m[0]] + [m[1]] + [m[2]];
    FilterAppend([m[0]] + [m[1]], [m[2]], HasStatus(Concluido));
    FilterAppend([m[0]], [m[1]], HasStatus(Concluido));
    FilterAppend([m[0]] + [m[1]], [m[2]], HasStatus(EmRecuperacao));
    FilterAppend([m[0]], [m[1]], HasStatus(EmRecuperacao));
    FilterAppend([m[0]] + [m[1]], [m[2]], HasStatus(Agendado));
    FilterAppend([m[0]], [m[1]], HasStatus(Agendado));
  }
}
