/** The new-lead page (`NovoLeadPage`): its schema, its defaults and its save flow. */
module NovoLeadPage {
  import opened Wrappers
  import opened Schema
  import FormSubmission

  const Potenciais: seq<string> := ["baixo", "medio", "alto"]

  /** `formSchema`. */
  const LeadSchema: ObjectSchema := [
    FieldRule("nome", MinLength(3), Required),
    FieldRule("email", EmailString, Optional),
    FieldRule("telefone", MinLength(10), Required),
    FieldRule("origem", AnyString, Required),
    FieldRule("status", AnyString, Default(Text("Novo"))),
    FieldRule("interesse", AnyString, Optional),
    FieldRule("observacoes", AnyString, Optional),
    FieldRule("potencial", OneOf(Potenciais), Required)
  ]

  /** `defaultValues`. */
  const LeadDefaults: Values := map[
    "nome" := Text(""), "email" := Text(""), "telefone" := Text(""), "origem" := Text(""),
    "status" := Text("Novo"), "interesse" := Text(""), "observacoes" := Text(""), "potencial" := Text("medio")
  ]

  /**
   * A lead is valid iff the name has at least 3 characters, an email, when present, passes
   * the email check, the phone has at least 10 characters, an origin string is present,
   * the potential is one of baixo, medio, alto, and the other fields are absent or strings.
   */
  lemma {:induction false} LeadSchemaMeaning(values: Values, isEmail: string -> bool)
    ensures Valid(LeadSchema, values, isEmail) <==>
      && HasText(values, "nome", 3)
      && ("email" in values ==> HasEmail(values, "email", isEmail))
      && HasText(values, "telefone", 10)
      && HasText(values, "origem", 0)
      && NoneOrText(values, "status")
      && NoneOrText(values, "interesse")
      && NoneOrText(values, "observacoes")
      && HasOption(values, "potencial", Potenciais)
  {
    var s := LeadSchema;
    ValidEight(s[0], s[1], s[2], s[3], s[4], s[5], s[6], s[7], values, isEmail);
    assert RuleHolds(s[0], values, isEmail) == HasText(values, "nome", 3);
    assert RuleHolds(s[1], values, isEmail) == ("email" in values ==> HasEmail(values, "email", isEmail));
    assert RuleHolds(s[2], values, isEmail) == HasText(values, "telefone", 10);
    assert RuleHolds(s[3], values, isEmail) == HasText(values, "origem", 0);
    assert RuleHolds(s[4], values, isEmail) == NoneOrText(values, "status");
    assert RuleHolds(s[5], values, isEmail) == NoneOrText(values, "interesse");
    assert RuleHolds(s[6], values, isEmail) == NoneOrText(values, "observacoes");
    assert RuleHolds(s[7], values, isEmail) == HasOption(values, "potencial", Potenciais);
  }

  /**
   * Over the defaults, filling in name and phone is not enough by itself: the email field
   * holds the empty string, which is present and therefore subject to the email check.
   */
  lemma {:induction false} DefaultEmailChecked(nome: string, telefone: string, isEmail: string -> bool)
    ensures Valid(LeadSchema, LeadDefaults["nome" := Text(nome)]["telefone" := Text(telefone)], isEmail)
      <==> |nome| >= 3 && |telefone| >= 10 && isEmail("")
  {
    var filled := LeadDefaults["nome" := Text(nome)]["telefone" := Text(telefone)];
    FilledReadings(LeadDefaults, nome, telefone);
    assert filled["email"] == Text("");
    LeadSchemaMeaning(filled, isEmail);
  }

  /**
   * Name and phone written over a map that holds the other defaults: the name and phone
   * readings are the lengths, and origin, potential and the optional fields already hold.
   */
  lemma FilledReadings(base: Values, nome: string, telefone: string)
    requires base == LeadDefaults || base == LeadDefaults - {"email"}
    ensures var filled := base["nome" := Text(nome)]["telefone" := Text(telefone)];
      && (HasText(filled, "nome", 3) <==> |nome| >= 3)
      && (HasText(filled, "telefone", 10) <==> |telefone| >= 10)
      && HasText(filled, "origem", 0)
      && NoneOrText(filled, "status") && NoneOrText(filled, "interesse") && NoneOrText(filled, "observacoes")
      && HasOption(filled, "potencial", Potenciais)
  {
    assert LeadDefaults["origem"] == Text("") && LeadDefaults["status"] == Text("Novo");
    assert LeadDefaults["interesse"] == Text("") && LeadDefaults["observacoes"] == Text("");
    assert LeadDefaults["potencial"] == Text("medio") && "medio" in Potenciais;
  }

  /** Removing the email field instead makes name and phone the only checks left. */
  lemma {:induction false} EmailOptional(nome: string, telefone: string, isEmail: string -> bool)
    ensures Valid(LeadSchema, (LeadDefaults - {"email"})["nome" := Text(nome)]["telefone" := Text(telefone)], isEmail)
      <==> |nome| >= 3 && |telefone| >= 10
  {
    var filled := (LeadDefaults - {"email"})["nome" := Text(nome)]["telefone" := Text(telefone)];
    FilledReadings(LeadDefaults - {"email"}, nome, telefone);
    assert "email" !in filled;
    LeadSchemaMeaning(filled, isEmail);
  }

  /** A valid lead without a status is saved with status "Novo". */
  lemma {:induction false} StatusDefaultsToNovo(values: Values, isEmail: string -> bool)
    requires "status" !in values && Valid(LeadSchema, values, isEmail)
    ensures var r := Parse(LeadSchema, values, isEmail);
      r.Ok? && "status" in r.value && r.value["status"] == Text("Novo")
  {
    LeadKeysUnique();
    assert LeadSchema[4] in LeadSchema;
  }

  /** The schema names each field once. */
  lemma LeadKeysUnique()
    ensures UniqueKeys(LeadSchema)
  {
  }

  /** The page's state: the save flow over the lead schema. */
  class NovoLead {
    const saving: FormSubmission.SavingForm

    /** The form starts from the defaults with nothing in flight. */
    constructor ()
      ensures fresh(saving)
      ensures saving.schema == LeadSchema && saving.values == LeadDefaults
      ensures saving.Valid() && !saving.isSubmitting
    {
      saving := new FormSubmission.SavingForm(LeadSchema, LeadDefaults);
    }
  }
}
