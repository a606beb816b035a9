/**
 * The leads board (`LeadsKanban`): leads grouped into buckets by status, three status
 * columns that show their bucket, and a drag-and-drop that asks for a status change.
 */
module LeadsKanban {
  import opened Wrappers
  import opened Lists

  datatype Lead = Lead(
    id: int,
    nome: string,
    telefone: string,
    email: string,
    origem: string,
    status: string,
    ultimaInteracao: string)

  /** `STATUS_COLUMNS`. */
  const StatusColumns: seq<string> := ["Novo", "Em contato", "Convertido"]

  /** The filter test `lead => lead.status === status`. */
  function InStatus(status: string): Lead -> bool {
    (lead: Lead) => lead.status == status
  }

  /** The leads of one status, in input order. */
  function Bucket(leads: seq<Lead>, status: string): (bucket: seq<Lead>)
    ensures forall lead :: lead in bucket <==> lead in leads && lead.status == status
    ensures IsSubsequence(bucket, leads)
  {
    Filter(leads, InStatus(status))
  }

  /** A status nobody has gets an empty bucket. */
  lemma BucketEmpty(leads: seq<Lead>, status: string)
    requires forall lead :: lead in leads ==> lead.status != status
    ensures Bucket(leads, status) == []
  {
  }

  /** The keys of `groupedLeads`: a key for every status that occurs and for no other. */
  ghost predicate KeysOf(groups: map<string, seq<Lead>>, leads: seq<Lead>) {
    forall status :: status in groups <==> exists lead :: lead in leads && lead.status == status
  }

  /** What `groupedLeads` holds: those keys, and under each the leads of that status in input order. */
  ghost predicate GroupsOf(groups: map<string, seq<Lead>>, leads: seq<Lead>) {
    && KeysOf(groups, leads)
    && (forall status :: status in groups ==> groups[status] == Bucket(leads, status))
  }

  /** `groupedLeads[status] || []`: what a column lists. */
  function ColumnLeads(groups: map<string, seq<Lead>>, status: string): seq<Lead> {
    if status in groups then groups[status] else []
  }

  /** Pushing a lead adds its status to the keys. */
  lemma PushKeys(groups: map<string, seq<Lead>>, done: seq<Lead>, lead: Lead)
    requires KeysOf(groups, done)
    ensures KeysOf(groups[lead.status := ColumnLeads(groups, lead.status) + [lead]], done + [lead])
  {
    var pushed := groups[lead.status := ColumnLeads(groups, lead.status) + [lead]];
    forall status ensures status in pushed <==> exists l :: l in done + [lead] && l.status == status {
      if status in pushed && status != lead.status {
        var l :| l in done && l.status == status;
        assert l in done + [lead];
      }
      if exists l :: l in done + [lead] && l.status == status {
        var l :| l in done + [lead] && l.status == status;
        if l != lead {
          assert l in done;
        }
      }
    }
  }

  /**
   * One step of the `reduce`: the lead is pushed onto its status' bucket, which is created
   * empty when absent, and the result describes the leads seen so far.
   */
  lemma {:induction false} PushKeepsGroups(groups: map<string, seq<Lead>>, done: seq<Lead>, lead: Lead)
    requires GroupsOf(groups, done)
    ensures GroupsOf(groups[lead.status := ColumnLeads(groups, lead.status) + [lead]], done + [lead])
  {
    var pushed := groups[lead.status := ColumnLeads(groups, lead.status) + [lead]];
    PushKeys(groups, done, lead);
    if lead.status !in groups {
      BucketEmpty(done, lead.status);
    }
    forall status | status in pushed ensures pushed[status] == Bucket(done + [lead], status) {
      BucketPush(done, lead, status);
    }
  }

  /** Appending a lead extends its own status' bucket by that lead and leaves every other bucket alone. */
  lemma BucketPush(done: seq<Lead>, lead: Lead, status: string)
    ensures Bucket(done + [lead], status) == Bucket(done, status) + (if lead.status == status then [lead] else [])
  {
    FilterAppend(done, [lead], InStatus(status));
  }

  /** The loop's step, stated on the prefix of the leads. */
  lemma PushStep(before: map<string, seq<Lead>>, after: map<string, seq<Lead>>, leads: seq<Lead>, i: int)
    requires 0 <= i < |leads| && GroupsOf(before, leads[..i])
    requires after == before[leads[i].status := ColumnLeads(before, leads[i].status) + [leads[i]]]
    ensures GroupsOf(after, leads[..i + 1])
  {
    PushKeepsGroups(before, leads[..i], leads[i]);
    assert leads[..i + 1] == leads[..i] + [leads[i]];
  }

  /** `leads.reduce(...)`: builds the buckets by pushing each lead, in order, onto the one of its status. */
  method GroupLeads(leads: seq<Lead>) returns (groups: map<string, seq<Lead>>)
    ensures GroupsOf(groups, leads)
  {
    groups := map[];
    var i := 0;
    while i < |leads|
      invariant 0 <= i <= |leads|
      invariant GroupsOf(groups, leads[..i])
    {
      var lead := leads[i];
      ghost var before := groups;
      if lead.status !in groups {
        groups := groups[lead.status := []];
      }
      groups := groups[lead.status := groups[lead.status] + [lead]];
      assert groups == before[lead.status := ColumnLeads(before, lead.status) + [lead]];
      PushStep(before, groups, leads, i);
      i := i + 1;
    }
    assert leads[..i] == leads;
  }

  /** The column's badge, `(groupedLeads[status] || []).length`. */
  function Badge(groups: map<string, seq<Lead>>, status: string): nat {
    |ColumnLeads(groups, status)|
  }

  /** Each column lists its status' leads in input order, and its badge counts them; an absent bucket counts 0. */
  lemma ColumnMeaning(groups: map<string, seq<Lead>>, leads: seq<Lead>, status: string)
    requires GroupsOf(groups, leads)
    ensures ColumnLeads(groups, status) == Bucket(leads, status)
    ensures Badge(groups, status) == |Bucket(leads, status)|
    ensures status !in groups ==> Badge(groups, status) == 0
  {
    if status !in groups {
      BucketEmpty(leads, status);
    }
  }

  /** A lead whose status is not one of the three columns is grouped but shown in no column. */
  lemma OffColumnHidden(groups: map<string, seq<Lead>>, leads: seq<Lead>, lead: Lead)
    requires GroupsOf(groups, leads)
    requires lead in leads && lead.status !in StatusColumns
    ensures lead.status in groups && lead in groups[lead.status]
    ensures forall column :: column in StatusColumns ==> lead !in ColumnLeads(groups, column)
  {
    forall column | column in StatusColumns ensures lead !in ColumnLeads(groups, column) {
      ColumnMeaning(groups, leads, column);
    }
  }

  /** The bucket sizes of the given statuses, added up. */
  function SumSizes(leads: seq<Lead>, statuses: seq<string>): nat {
    if statuses == [] then 0 else |Bucket(leads, statuses[0])| + SumSizes(leads, statuses[1..])
  }

  lemma {:induction false} SumSizesEmpty(statuses: seq<string>)
    ensures SumSizes([], statuses) == 0
  {
    if statuses != [] {
      SumSizesEmpty(statuses[1..]);
    }
  }

  /** A lead in front adds one to the bucket of its status for every time that status is listed. */
  lemma {:induction false} SumSizesCons(lead: Lead, rest: seq<Lead>, statuses: seq<string>)
    ensures SumSizes([lead] + rest, statuses) == SumSizes(rest, statuses) + Count(statuses, lead.status)
  {
    if statuses != [] {
      FilterAppend([lead], rest, InStatus(statuses[0]));
      SumSizesCons(lead, rest, statuses[1..]);
    }
  }

  /** A value listed once in a duplicate-free list is counted once. */
  lemma {:induction false} CountOnce(statuses: seq<string>, status: string)
    requires NoDup(statuses) && status in statuses
    ensures Count(statuses, status) == 1
  {
    var tail := statuses[1..];
    assert NoDup(tail) by {
      forall i, j | 0 <= i < j < |tail| ensures tail[i] != tail[j] {
        assert tail[i] == statuses[i + 1] && tail[j] == statuses[j + 1];
      }
    }
    if statuses[0] == status {
      assert status !in tail by {
        forall k | 0 <= k < |tail| ensures tail[k] != status {
          assert tail[k] == statuses[k + 1];
        }
      }
    } else {
      CountOnce(tail, status);
    }
  }

  /** Over duplicate-free statuses that cover every lead, the bucket sizes add up to the number of leads. */
  lemma {:induction false} BucketSizesSum(leads: seq<Lead>, statuses: seq<string>)
    requires NoDup(statuses)
    requires forall lead :: lead in leads ==> lead.status in statuses
    ensures SumSizes(leads, statuses) == |leads|
  {
    if leads == [] {
      SumSizesEmpty(statuses);
    } else {
      var rest := leads[1..];
      assert leads == [leads[0]] + rest;
      SumSizesCons(leads[0], rest, statuses);
      CountOnce(statuses, leads[0].status);
      BucketSizesSum(rest, statuses);
    }
  }

  /** The statuses of the leads, each once, in order of first appearance: the keys of `groupedLeads`. */
  function StatusKeys(leads: seq<Lead>): (keys: seq<string>)
    ensures NoDup(keys)
    ensures forall status :: status in keys <==> exists lead :: lead in leads && lead.status == status
  {
    var statuses := seq(|leads|, i requires 0 <= i < |leads| => leads[i].status);
    assert forall status :: status in statuses <==> exists lead :: lead in leads && lead.status == status by {
      forall status ensures status in statuses <==> exists lead :: lead in leads && lead.status == status {
        if exists lead :: lead in leads && lead.status == status {
          var lead :| lead in leads && lead.status == status;
          var i :| 0 <= i < |leads| && leads[i] == lead;
          assert statuses[i] == status;
        }
      }
    }
    Dedup(statuses)
  }

  /** Every lead is in exactly one bucket, so the buckets of all keys together hold as many leads as the list. */
  lemma GroupsPartition(groups: map<string, seq<Lead>>, leads: seq<Lead>)
    requires GroupsOf(groups, leads)
    ensures forall lead :: lead in leads ==> lead in groups[lead.status]
    ensures forall status, lead :: status in groups && lead in groups[status] ==> lead.status == status
    ensures SumSizes(leads, StatusKeys(leads)) == |leads|
  {
    var keys := StatusKeys(leads);
    forall lead | lead in leads ensures lead.status in keys && lead in groups[lead.status] {
      assert lead.status in groups;
      assert groups[lead.status] == Bucket(leads, lead.status);
    }
    forall status, lead | status in groups && lead in groups[status] ensures lead.status == status {
      assert groups[status] == Bucket(leads, status);
    }
    BucketSizesSum(leads, keys);
  }

  /** A status change requested by a drop: `onStatusChange(leadId, newStatus)`. */
  datatype StatusChange = StatusChange(leadId: int, newStatus: string)

  /** The board's own state: the lead being dragged. */
  class Board {
    var draggedLead: Option<Lead>

    constructor ()
      ensures draggedLead == None
    {
      draggedLead := None;
    }

    /** `handleDragStart`. */
    method HandleDragStart(lead: Lead)
      modifies this
      ensures draggedLead == Some(lead)
    {
      draggedLead := Some(lead);
    }

    /**
     * `handleDrop` on a column: with a lead being dragged whose status differs from the
     * column's, the change is requested and the dragged lead cleared; otherwise nothing
     * happens and the dragged lead stays set.
     */
    method HandleDrop(status: string) returns (change: Option<StatusChange>)
      modifies this
      ensures change.Some? <==> old(draggedLead).Some? && old(draggedLead).value.status != status
      ensures change.Some? ==> change.value == StatusChange(old(draggedLead).value.id, status) && draggedLead == None
      ensures change.None? ==> draggedLead == old(draggedLead)
    {
      match draggedLead {
        case None =>
          change := None;
        case Some(lead) =>
          if lead.status != status {
            change := Some(StatusChange(lead.id, status));
            draggedLead := None;
          } else {
            change := None;
          }
      }
    }
  }
}
