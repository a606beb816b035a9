/** The patient list (`PacientesPage`): a search box over a fixed list of patients. */
module PacientesPage {
  import opened Lists
  import opened Strings

  datatype Patient = Patient(
    id: int,
    name: string,
    email: string,
    phone: string,
    lastAppointment: string,
    nextAppointment: string,
    status: string)

  const Patients: seq<Patient> := [
    Patient(1, "Ana Silva", "ana.silva@email.com", "(11) 98765-4321", "15/05/2025", "22/05/2025", "Regular"),
    Patient(2, "Carlos Oliveira", "carlos.oliveira@email.com", "(11) 91234-5678", "10/05/2025", "24/05/2025", "Regular"),
    Patient(3, "Beatriz Santos", "beatriz.santos@email.com", "(11) 99876-5432", "05/05/2025", "05/06/2025", "Regular"),
    Patient(4, "Daniel Pereira", "daniel.pereira@email.com", "(11) 92345-6789", "25/04/2025", "25/05/2025", "Novo"),
    Patient(5, "Eduarda Lima", "eduarda.lima@email.com", "(11) 93456-7890", "20/04/2025", "20/05/2025", "Regular"),
    Patient(6, "Fábio Costa", "fabio.costa@email.com", "(11) 94567-8901", "-", "21/05/2025", "Novo"),
    Patient(7, "Gabriela Martins", "gabriela.martins@email.com", "(11) 95678-9012", "18/04/2025", "-", "Inativo")
  ]

  /** A patient matches when the query occurs, ignoring case, in its name, email or phone. */
  predicate Matches(p: Patient, query: string) {
    ContainsIgnoringCase(p.name, query) || ContainsIgnoringCase(p.email, query) || ContainsIgnoringCase(p.phone, query)
  }

  /** `filteredPatients`: the matching patients, in list order. */
  function FilteredPatients(patients: seq<Patient>, query: string): (shown: seq<Patient>)
    ensures forall p :: p in shown <==> p in patients && Matches(p, query)
    ensures IsSubsequence(shown, patients)
  {
    Filter(patients, p => Matches(p, query))
  }

  /** The empty query shows every patient. */
  lemma EmptyQueryShowsAll(patients: seq<Patient>)
    ensures FilteredPatients(patients, "") == patients
  {
    forall p | p in patients ensures Matches(p, "") {
      ContainsEmpty(p.name);
    }
    FilterAll(patients, p => Matches(p, ""));
  }

  /** Queries that differ only in letter case show the same patients. */
  lemma QueryCaseIgnored(patients: seq<Patient>, q1: string, q2: string)
    requires Lower(q1) == Lower(q2)
    ensures FilteredPatients(patients, q1) == FilteredPatients(patients, q2)
  {
    forall p | p in patients ensures Matches(p, q1) <==> Matches(p, q2) {
      ContainsIgnoringCaseInvariant(p.name, q1, q2);
      ContainsIgnoringCaseInvariant(p.email, q1, q2);
      ContainsIgnoringCaseInvariant(p.phone, q1, q2);
    }
    FilterCongruent(patients, p => Matches(p, q1), p => Matches(p, q2));
  }

  /** The "no patient found" row is shown iff no patient matches. */
  predicate ShowsNotFound(patients: seq<Patient>, query: string) {
    |FilteredPatients(patients, query)| == 0
  }

  lemma NotFoundIff(patients: seq<Patient>, query: string)
    ensures ShowsNotFound(patients, query) <==> forall p :: p in patients ==> !Matches(p, query)
  {
    var shown := FilteredPatients(patients, query);
    if |shown| != 0 {
      assert shown[0] in shown;
    }
  }
}
