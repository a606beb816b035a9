/** The new-patient page (`NovoPacientePage`): its schema, its defaults and its tab state. */
module NovoPacientePage {
  import opened Schema
  import FormSubmission

  /** The fields `formSchema` requires: name, email, phone and birth date. */
  const PacienteRequired: ObjectSchema := [
    FieldRule("nome", MinLength(3), Required),
    FieldRule("email", EmailString, Required),
    FieldRule("telefone", MinLength(10), Required),
    FieldRule("dataNascimento", AnyString, Required)
  ]

  /** The optional fields that follow them: the rest of the personal data, then the medical record. */
  const PacienteOptional: ObjectSchema := [
    FieldRule("cpf", AnyString, Optional),
    FieldRule("endereco", AnyString, Optional),
    FieldRule("observacoes", AnyString, Optional),
    FieldRule("alergias", AnyString, Optional),
    FieldRule("medicamentosAtuais", AnyString, Optional),
    FieldRule("doencasCronicas", AnyString, Optional),
    FieldRule("historicoFamiliar", AnyString, Optional),
    FieldRule("tipoSanguineo", AnyString, Optional),
    FieldRule("altura", AnyString, Optional),
    FieldRule("peso", AnyString, Optional)
  ]

  /** `formSchema`, its fields in declaration order. */
  const PacienteSchema: ObjectSchema := PacienteRequired + PacienteOptional

  /** `defaultValues`: every field starts as the empty string. */
  const PacienteDefaults: Values := map[
    "nome" := Text(""), "email" := Text(""), "telefone" := Text(""), "dataNascimento" := Text(""),
    "cpf" := Text(""), "endereco" := Text(""), "observacoes" := Text(""),
    "alergias" := Text(""), "medicamentosAtuais" := Text(""), "doencasCronicas" := Text(""),
    "historicoFamiliar" := Text(""), "tipoSanguineo" := Text(""), "altura" := Text(""), "peso" := Text("")
  ]

  /** Each of the optional fields is absent or a string. */
  predicate OptionalFieldsAreText(values: Values) {
    forall r :: r in PacienteOptional ==> NoneOrText(values, r.key)
  }

  /** The required part holds iff name, email, phone and birth date pass their checks. */
  lemma RequiredMeaning(values: Values, isEmail: string -> bool)
    ensures Valid(PacienteRequired, values, isEmail) <==>
      && HasText(values, "nome", 3)
      && HasEmail(values, "email", isEmail)
      && HasText(values, "telefone", 10)
      && HasText(values, "dataNascimento", 0)
  {
    var s := PacienteRequired;
    ValidFour(s[0], s[1], s[2], s[3], values, isEmail);
    assert RuleHolds(s[0], values, isEmail) == HasText(values, "nome", 3);
    assert RuleHolds(s[1], values, isEmail) == HasEmail(values, "email", isEmail);
    assert RuleHolds(s[2], values, isEmail) == HasText(values, "telefone", 10);
    assert RuleHolds(s[3], values, isEmail) == HasText(values, "dataNascimento", 0);
  }

  /**
   * A patient record is valid iff the name has at least 3 characters, the email passes
   * the email check, the phone has at least 10 characters, a birth date string (possibly
   * empty) is present, and every other field is absent or a string.
   */
  lemma {:induction false} PacienteSchemaMeaning(values: Values, isEmail: string -> bool)
    ensures Valid(PacienteSchema, values, isEmail) <==>
      && HasText(values, "nome", 3)
      && HasEmail(values, "email", isEmail)
      && HasText(values, "telefone", 10)
      && HasText(values, "dataNascimento", 0)
      && OptionalFieldsAreText(values)
  {
    ValidAppend(PacienteRequired, PacienteOptional, values, isEmail);
    RequiredMeaning(values, isEmail);
    assert OptionalStrings(PacienteOptional);
    OptionalStringsValid(PacienteOptional, values, isEmail);
  }

  /** Every default is the empty string. */
  lemma DefaultsEmpty()
    ensures forall k :: k in PacienteDefaults ==> PacienteDefaults[k] == Text("")
  {
  }

  /** What the three filled fields and the untouched defaults read as. */
  lemma FilledReadings(nome: string, email: string, telefone: string, isEmail: string -> bool)
    ensures var filled := PacienteDefaults["nome" := Text(nome)]["email" := Text(email)]["telefone" := Text(telefone)];
      && (HasText(filled, "nome", 3) <==> |nome| >= 3)
      && (HasEmail(filled, "email", isEmail) <==> isEmail(email))
      && (HasText(filled, "telefone", 10) <==> |telefone| >= 10)
      && HasText(filled, "dataNascimento", 0)
      && OptionalFieldsAreText(filled)
  {
    var filled := PacienteDefaults["nome" := Text(nome)]["email" := Text(email)]["telefone" := Text(telefone)];
    DefaultsEmpty();
    assert forall k :: k in filled ==> filled[k].Text?;
  }

  /** The defaults are rejected: the name is empty. */
  lemma DefaultsRejected(isEmail: string -> bool)
    ensures !Valid(PacienteSchema, PacienteDefaults, isEmail)
  {
    assert PacienteDefaults["nome"] == Text("");
    RequiredMeaning(PacienteDefaults, isEmail);
    ValidAppend(PacienteRequired, PacienteOptional, PacienteDefaults, isEmail);
  }

  /**
   * Filling in only name, email and phone over the defaults makes the form valid exactly
   * when those three pass: the empty birth date and the empty optional fields are accepted.
   */
  lemma {:induction false} DefaultsNeedThreeFields(nome: string, email: string, telefone: string, isEmail: string -> bool)
    ensures Valid(PacienteSchema,
        PacienteDefaults["nome" := Text(nome)]["email" := Text(email)]["telefone" := Text(telefone)], isEmail)
      <==> |nome| >= 3 && isEmail(email) && |telefone| >= 10
  {
    var filled := PacienteDefaults["nome" := Text(nome)]["email" := Text(email)]["telefone" := Text(telefone)];
    FilledReadings(nome, email, telefone, isEmail);
    PacienteSchemaMeaning(filled, isEmail);
  }

  const DadosPessoais: string := "dados-pessoais"
  const InformacoesMedicas: string := "informacoes-medicas"

  /** The page's state: the save flow and the open tab. */
  class NovoPaciente {
    const saving: FormSubmission.SavingForm
    var activeTab: string

    /** The form starts from the defaults with nothing in flight, on the personal-data tab. */
    constructor ()
      ensures fresh(saving)
      ensures saving.schema == PacienteSchema && saving.values == PacienteDefaults
      ensures saving.Valid() && !saving.isSubmitting
      ensures activeTab == DadosPessoais
    {
      saving := new FormSubmission.SavingForm(PacienteSchema, PacienteDefaults);
      activeTab := DadosPessoais;
    }

    /** The tabs' `onValueChange`, and the "Próximo" and "Voltar" buttons with their fixed targets. */
    method SetActiveTab(tab: string)
      modifies this
      ensures activeTab == tab
    {
      activeTab := tab;
    }
  }
}
