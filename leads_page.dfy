/**
 * The leads page (`LeadsPage`): the lead list held in state, whose status a board drop
 * changes by id.
 */
module LeadsPage {
  import opened Lists
  import opened LeadsKanban

  const LeadsData: seq<Lead> := [
    Lead(1, "Maria Silva", "(11) 99999-1111", "maria@exemplo.com", "Site", "Novo", "10/05/2025"),
    Lead(2, "João Santos", "(11) 99999-2222", "joao@exemplo.com", "Instagram", "Em contato", "05/05/2025"),
    Lead(3, "Ana Pereira", "(11) 99999-3333", "ana@exemplo.com", "Facebook", "Convertido", "01/05/2025"),
    Lead(4, "Carlos Oliveira", "(11) 99999-4444", "carlos@exemplo.com", "Indicação", "Novo", "08/05/2025"),
    Lead(5, "Patricia Costa", "(11) 99999-5555", "patricia@exemplo.com", "Site", "Em contato", "03/05/2025")
  ]

  /** `leadsData.map(lead => lead.id === leadId ? { ...lead, status: newStatus } : lead)`. */
  function UpdateStatus(leads: seq<Lead>, leadId: int, newStatus: string): seq<Lead> {
    seq(|leads|, i requires 0 <= i < |leads| =>
      if leads[i].id == leadId then leads[i].(status := newStatus) else leads[i])
  }

  /**
   * The list keeps its length and order; every lead with that id takes the new status and
   * keeps all its other fields, and every other lead is unchanged.
   */
  lemma UpdateStatusMeaning(leads: seq<Lead>, leadId: int, newStatus: string)
    ensures |UpdateStatus(leads, leadId, newStatus)| == |leads|
    ensures forall i :: 0 <= i < |leads| ==>
      var after := UpdateStatus(leads, leadId, newStatus)[i];
      && after.id == leads[i].id
      && after.(status := leads[i].status) == leads[i]
      && (leads[i].id == leadId ==> after.status == newStatus)
      && (leads[i].id != leadId ==> after == leads[i])
  {
  }

  /** An id no lead has leaves the list unchanged. */
  lemma UnknownIdNoChange(leads: seq<Lead>, leadId: int, newStatus: string)
    requires forall lead :: lead in leads ==> lead.id != leadId
    ensures UpdateStatus(leads, leadId, newStatus) == leads
  {
    var after := UpdateStatus(leads, leadId, newStatus);
    forall i | 0 <= i < |leads| ensures after[i] == leads[i] {
      assert leads[i] in leads;
    }
  }

  /** Applying the same status change twice is applying it once. */
  lemma UpdateStatusIdempotent(leads: seq<Lead>, leadId: int, newStatus: string)
    ensures UpdateStatus(UpdateStatus(leads, leadId, newStatus), leadId, newStatus)
      == UpdateStatus(leads, leadId, newStatus)
  {
  }

  /**
   * A drop that moves a lead to another column: on the board rebuilt from the new list
   * the lead sits in the target column with its new status, and is gone from the old one.
   */
  lemma DropMovesLead(leads: seq<Lead>, lead: Lead, newStatus: string)
    requires lead in leads
    ensures lead.(status := newStatus) in Bucket(UpdateStatus(leads, lead.id, newStatus), newStatus)
    ensures forall l :: l in Bucket(UpdateStatus(leads, lead.id, newStatus), lead.status) ==>
      l.id != lead.id || lead.status == newStatus
  {
    var after := UpdateStatus(leads, lead.id, newStatus);
    var i :| 0 <= i < |leads| && leads[i] == lead;
    assert after[i] == lead.(status := newStatus);
  }

  /** The page's state: the list the table and the board show. */
  class Page {
    var leadsData: seq<Lead>

    constructor ()
      ensures leadsData == LeadsData
    {
      leadsData := LeadsData;
    }

    /** `handleStatusChange(leadId, newStatus)`, the board's `onStatusChange`. */
    method HandleStatusChange(leadId: int, newStatus: string)
      modifies this
      ensures leadsData == UpdateStatus(old(leadsData), leadId, newStatus)
    {
      leadsData := UpdateStatus(leadsData, leadId, newStatus);
    }
  }
}
