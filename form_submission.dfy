/**
 * The save flow shared by the new-patient and new-lead pages: the submit button runs
 * react-hook-form's `handleSubmit(onSubmit)`, which parses the values with the page's
 * schema and calls `onSubmit` only on success; `onSubmit` sets `isSubmitting` and starts
 * a timer whose callback clears it again. The button is disabled while `isSubmitting`.
 */
module FormSubmission {
  import opened Wrappers
  import opened Schema

  class SavingForm {
    /** The page's `formSchema`. */
    const schema: ObjectSchema
    /** The form's current values. */
    var values: Values
    var isSubmitting: bool
    /** Save timers started and not yet fired. */
    var pendingSaves: nat
    /** The parsed records handed to `onSubmit`, oldest first. */
    var submitted: seq<Values>

    /** At most one save is in flight, and exactly while the flag is set. */
    predicate Valid()
      reads this
    {
      pendingSaves <= 1 && (isSubmitting <==> pendingSaves == 1)
    }

    /** `useForm({ defaultValues })` and `useState(false)`. */
    constructor (schema: ObjectSchema, defaults: Values)
      ensures Valid()
      ensures this.schema == schema && values == defaults
      ensures !isSubmitting && pendingSaves == 0 && submitted == []
    {
      this.schema := schema;
      values := defaults;
      isSubmitting := false;
      pendingSaves := 0;
      submitted := [];
    }

    /** A field's `onChange`: that field takes the new value, every other field keeps its own. */
    method SetValue(key: string, v: Value)
      modifies this
      ensures values == old(values)[key := v]
      ensures isSubmitting == old(isSubmitting) && pendingSaves == old(pendingSaves) && submitted == old(submitted)
    {
      values := values[key := v];
    }

    /**
     * A click on the submit button. While a save is in flight the button is disabled and
     * nothing happens; otherwise invalid values are reported by key and valid ones are
     * handed, parsed, to `onSubmit`, which sets the flag and starts the timer.
     */
    method ClickSave(isEmail: string -> bool) returns (errors: seq<string>)
      requires Valid()
      modifies this
      ensures Valid()
      ensures values == old(values)
      ensures old(isSubmitting) ==>
        errors == [] && isSubmitting && pendingSaves == old(pendingSaves) && submitted == old(submitted)
      ensures !old(isSubmitting) ==>
        match Parse(schema, old(values), isEmail)
        case Ok(record) =>
          errors == [] && isSubmitting && pendingSaves == 1 && submitted == old(submitted) + [record]
        case Err(errs) =>
          errors == errs && errors != [] && !isSubmitting && pendingSaves == 0 && submitted == old(submitted)
    {
      errors := [];
      if !isSubmitting {
        var parsed := Parse(schema, values, isEmail);
        match parsed {
          case Ok(record) =>
            isSubmitting := true;
            pendingSaves := pendingSaves + 1;
            submitted := submitted + [record];
          case Err(errs) =>
            errors := errs;
        }
      }
    }

    /** The save timer's callback: the flag is cleared (and the page navigates away). */
    method SaveTimerFires()
      requires Valid() && pendingSaves > 0
      modifies this
      ensures Valid()
      ensures !isSubmitting && pendingSaves == 0
      ensures values == old(values) && submitted == old(submitted)
    {
      isSubmitting := false;
      pendingSaves := pendingSaves - 1;
    }
  }
}
