/**
 * The weekly agenda (`AgendaSemanal`): a grid of seven days by eleven hours over a fixed
 * appointment list, and a week cursor stepped back and forth. Days are calendar days
 * (see `Calendar`); the cursor holds the day of the instant it was set to.
 */
module AgendaSemanal {
  import opened Lists
  import opened Strings
  import opened Calendar

  datatype Agendamento = Agendamento(
    id: int, nome: string, hora: string, duracao: nat, dia: int, tipo: string, cor: string)

  const MockAgendamentos: seq<Agendamento> := [
    Agendamento(1, "João Santos", "08:00", 60, 1, "Consulta", "bg-blue-200"),
    Agendamento(2, "Maria Silva", "09:00", 30, 1, "Retorno", "bg-green-200"),
    Agendamento(3, "Ana Pereira", "10:00", 45, 2, "Exame", "bg-yellow-200"),
    Agendamento(4, "Carlos Mendes", "11:00", 30, 2, "Consulta", "bg-purple-200"),
    Agendamento(5, "Fernanda Lima", "14:00", 60, 3, "Primeira vez", "bg-pink-200"),
    Agendamento(6, "Ricardo Oliveira", "15:00", 45, 4, "Retorno", "bg-orange-200"),
    Agendamento(7, "Luciana Santos", "16:00", 30, 4, "Consulta", "bg-teal-200"),
    Agendamento(8, "Paulo Ferreira", "09:30", 60, 5, "Exame", "bg-indigo-200")
  ]

  /** The digit character for 0..9. */
  function Digit(n: nat): char
    requires n < 10
  {
    ('0' as int + n) as char
  }

  /** `${hora.toString().padStart(2, '0')}:00`. */
  function HourLabel(hora: nat): string {
    PadStart(DecimalString(hora), 2, '0') + ":00"
  }

  /** Below 100 the label is the two digits of the hour followed by ":00". */
  lemma HourLabelDigits(hora: nat)
    requires hora < 100
    ensures HourLabel(hora) == [Digit(hora / 10), Digit(hora % 10), ':', '0', '0']
  {
    if hora >= 10 {
      assert DecimalString(hora) == DecimalString(hora / 10) + [Digit(hora % 10)];
    }
  }

  /** `horarios`: the rows of the grid, 8 to 18 o'clock. */
  function Horarios(): (rows: seq<string>)
    ensures |rows| == 11
    ensures forall i :: 0 <= i < 11 ==> rows[i] == HourLabel(8 + i)
  {
    seq(11, i requires 0 <= i < 11 => HourLabel(8 + i))
  }

  /** The hour a row label names, read from its two leading digits. */
  function HourOf(row: string): int
    requires |row| >= 2
  {
    (row[0] as int - '0' as int) * 10 + (row[1] as int - '0' as int)
  }

  /** One row: five characters, two digits naming the hour `8 + i`, then ":00". */
  lemma RowShape(i: int)
    requires 0 <= i < 11
    ensures |Horarios()[i]| == 5 && Horarios()[i][2] == ':' && Horarios()[i][3] == '0' && Horarios()[i][4] == '0'
    ensures HourOf(Horarios()[i]) == 8 + i
  {
    var h: nat := 8 + i;
    HourLabelDigits(h);
    var row := Horarios()[i];
    assert row == [Digit(h / 10), Digit(h % 10), ':', '0', '0'];
    assert row[0] as int - '0' as int == h / 10;
    assert row[1] as int - '0' as int == h % 10;
  }

  /**
   * The rows run from "08:00" to "18:00": each is five characters, two digits and ":00",
   * and the hours they name increase by one from row to row.
   */
  lemma HorariosShape()
    ensures forall i :: 0 <= i < 11 ==>
      |Horarios()[i]| == 5 && Horarios()[i][2] == ':' && Horarios()[i][3] == '0' && Horarios()[i][4] == '0'
      && HourOf(Horarios()[i]) == 8 + i
  {
    forall i | 0 <= i < 11
      ensures |Horarios()[i]| == 5 && Horarios()[i][2] == ':' && Horarios()[i][3] == '0' && Horarios()[i][4] == '0'
      ensures HourOf(Horarios()[i]) == 8 + i
    {
      RowShape(i);
    }
  }

  /** The first row is "08:00" and the last "18:00". */
  lemma FirstAndLastRows()
    ensures Horarios()[0] == "08:00" && Horarios()[10] == "18:00"
  {
    var rows := Horarios();
    assert rows[0] == HourLabel(8) && rows[10] == HourLabel(18);
    HourLabelDigits(8);
    HourLabelDigits(18);
    assert Digit(0) == '0' && Digit(8) == '8' && Digit(1) == '1';
  }

  /** `getAgendamentosPorDiaEHora(dia, hora)`: the appointments of that day index and hour, in list order. */
  function Cell(agendamentos: seq<Agendamento>, dia: int, hora: string): (cell: seq<Agendamento>)
    ensures forall a :: a in cell <==> a in agendamentos && a.dia == dia && a.hora == hora
    ensures IsSubsequence(cell, agendamentos)
  {
    Filter(agendamentos, (a: Agendamento) => a.dia == dia && a.hora == hora)
  }

  /**
   * An appointment whose hour is not five characters ending in ":00" ("09:30", "09:05",
   * "9:00") is in no cell of the grid.
   */
  lemma OffHourNeverShown(a: Agendamento, agendamentos: seq<Agendamento>)
    requires !(|a.hora| == 5 && a.hora[2..] == ":00")
    ensures forall dia, i :: 0 <= i < 11 ==> a !in Cell(agendamentos, dia, Horarios()[i])
  {
    HorariosShape();
    forall dia, i | 0 <= i < 11 ensures a !in Cell(agendamentos, dia, Horarios()[i]) {
      var row := Horarios()[i];
      assert row[2..] == ":00";
    }
  }

  /** In the mock list that is Paulo Ferreira's 09:30 exam. */
  lemma MockOffHour()
    ensures MockAgendamentos[7].hora == "09:30"
    ensures forall dia, i :: 0 <= i < 11 ==> MockAgendamentos[7] !in Cell(MockAgendamentos, dia, Horarios()[i])
  {
    OffHourNeverShown(MockAgendamentos[7], MockAgendamentos);
  }

  /** `startOfWeek(day, { weekStartsOn: 0 })`: the Sunday on or before the day. */
  function WeekStart(day: Day): (start: Day)
    ensures Weekday(start) == 0
    ensures start <= day < start + 7
  {
    day - Weekday(day)
  }

  /** `days`: the seven days of the week shown, from its Sunday on. */
  function WeekDays(day: Day): (days: seq<Day>)
    ensures |days| == 7
    ensures forall i :: 0 <= i < 7 ==> days[i] == WeekStart(day) + i && Weekday(days[i]) == i
    ensures day in days
  {
    var days := seq(7, i requires 0 <= i < 7 => WeekStart(day) + i);
    assert days[day - WeekStart(day)] == day;
    days
  }

  /** Moving the cursor by a week moves the week shown by a week. */
  lemma {:induction false} WeekStartShift(day: Day)
    ensures WeekStart(day + 7) == WeekStart(day) + 7
    ensures WeekStart(day - 7) == WeekStart(day) - 7
  {
    assert Weekday(day + 7) == Weekday(day);
    assert Weekday(day - 7) == Weekday(day);
  }

  /** The week cursor (`currentWeek`). */
  class WeekCursor {
    var currentWeek: Day

    /** `useState(new Date())`: the week of today. */
    constructor (today: Day)
      ensures currentWeek == today
    {
      currentWeek := today;
    }

    /** The days the grid's header shows: the cursor's week, Sunday to Saturday. */
    function Days(): (days: seq<Day>)
      reads this
      ensures |days| == 7 && days[0] == WeekStart(currentWeek)
      ensures forall i :: 0 <= i < 7 ==> Weekday(days[i]) == i
      ensures currentWeek in days
    {
      WeekDays(currentWeek)
    }

    method GoToPreviousWeek()
      modifies this
      ensures currentWeek == old(currentWeek) - 7
      ensures WeekStart(currentWeek) == WeekStart(old(currentWeek)) - 7
    {
      WeekStartShift(currentWeek);
      currentWeek := currentWeek - 7;
    }

    method GoToNextWeek()
      modifies this
      ensures currentWeek == old(currentWeek) + 7
      ensures WeekStart(currentWeek) == WeekStart(old(currentWeek)) + 7
    {
      WeekStartShift(currentWeek);
      currentWeek := currentWeek + 7;
    }
  }

  /** Next week then previous week shows the same week again. */
  method NextThenPrevious(cursor: WeekCursor)
    modifies cursor
    ensures cursor.currentWeek == old(cursor.currentWeek)
    ensures cursor.Days() == old(cursor.Days())
  {
    cursor.GoToNextWeek();
    cursor.GoToPreviousWeek();
  }
}
