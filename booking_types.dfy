/** The booking records and the public booking schema (`agendamentoFormSchema`). */
module BookingTypes {
  import opened Wrappers
  import opened Schema

  /** A bookable professional; read-only to the booking flow. */
  datatype Profissional = Profissional(
    id: string,
    nome: string,
    especialidade: string,
    crm: Option<string>,
    imagem: Option<string>,
    biografia: Option<string>)

  /** A time slot and whether it can be booked. */
  datatype HorarioDisponivel = HorarioDisponivel(hora: string, disponivel: bool)

  /** The appointment modality, `"presencial" | "online"`. */
  datatype Modalidade = Presencial | Online {
    function Name(): string {
      match this
      case Presencial => "presencial"
      case Online => "online"
    }
  }

  const ModalidadeOptions: seq<string> := ["presencial", "online"]

  /** `agendamentoFormSchema`. */
  const BookingSchema: ObjectSchema := [
    FieldRule("nome", MinLength(3), Required),
    FieldRule("email", EmailString, Required),
    FieldRule("telefone", MinLength(10), Required),
    FieldRule("data", AnyDate, Required),
    FieldRule("horario", AnyString, Required),
    FieldRule("especialidade", AnyString, Required),
    FieldRule("profissional", AnyString, Required),
    FieldRule("modalidade", OneOf(ModalidadeOptions), Required),
    FieldRule("convenio", AnyString, Optional),
    FieldRule("observacoes", AnyString, Optional)
  ]

  /** A booking record is valid iff every one of its field rules holds. */
  lemma BookingSchemaMeaning(values: Values, isEmail: string -> bool)
    ensures Valid(BookingSchema, values, isEmail) <==>
      && HasText(values, "nome", 3)
      && HasEmail(values, "email", isEmail)
      && HasText(values, "telefone", 10)
      && HasDate(values, "data")
      && HasText(values, "horario", 0)
      && HasText(values, "especialidade", 0)
      && HasText(values, "profissional", 0)
      && HasOption(values, "modalidade", ModalidadeOptions)
      && NoneOrText(values, "convenio")
      && NoneOrText(values, "observacoes")
  {
    var s := BookingSchema;
    ValidTen(s[0], s[1], s[2], s[3], s[4], s[5], s[6], s[7], s[8], s[9], values, isEmail);
    assert RuleHolds(s[0], values, isEmail) == HasText(values, "nome", 3);
    assert RuleHolds(s[1], values, isEmail) == HasEmail(values, "email", isEmail);
    assert RuleHolds(s[2], values, isEmail) == HasText(values, "telefone", 10);
    assert RuleHolds(s[3], values, isEmail) == HasDate(values, "data");
    assert RuleHolds(s[4], values, isEmail) == HasText(values, "horario", 0);
    assert RuleHolds(s[5], values, isEmail) == HasText(values, "especialidade", 0);
    assert RuleHolds(s[6], values, isEmail) == HasText(values, "profissional", 0);
    assert RuleHolds(s[7], values, isEmail) == HasOption(values, "modalidade", ModalidadeOptions);
    assert RuleHolds(s[8], values, isEmail) == NoneOrText(values, "convenio");
    assert RuleHolds(s[9], values, isEmail) == NoneOrText(values, "observacoes");
  }

  /** Each modality the hook can select is one the schema's enum accepts, and no other string is. */
  lemma ModalidadeAccepted(m: Modalidade, v: string)
    ensures v in ModalidadeOptions <==> v == Presencial.Name() || v == Online.Name()
    ensures m.Name() in ModalidadeOptions
  {
  }
}
