/**
 * Choosing the recipients of a marketing send (`SelecionarDestinatariosPage`): a tab and a
 * search box filter the fixed patient and lead lists, a selection of contact ids is toggled
 * one at a time or all at once, and continuing passes the selected contacts on.
 */
module SelecionarDestinatariosPage {
  import opened Wrappers
  import opened Lists
  import opened Strings

  datatype Tipo = Paciente | Lead

  datatype Contact = Contact(
    id: int,
    nome: string,
    telefone: string,
    email: string,
    tipo: Tipo,
    status: Option<string>,
    ultimaConsulta: Option<string>,
    origem: Option<string>)

  const PacientesData: seq<Contact> := [
    Contact(1, "Maria Silva", "(11) 99999-1111", "maria@exemplo.com", Paciente, None, Some("10/05/2025"), None),
    Contact(2, "João Santos", "(11) 99999-2222", "joao@exemplo.com", Paciente, None, Some("05/05/2025"), None),
    Contact(3, "Ana Pereira", "(11) 99999-3333", "ana@exemplo.com", Paciente, None, Some("01/05/2025"), None),
    Contact(4, "Carlos Oliveira", "(11) 99999-4444", "carlos@exemplo.com", Paciente, None, Some("08/05/2025"), None),
    Contact(5, "Patricia Costa", "(11) 99999-5555", "patricia@exemplo.com", Paciente, None, Some("03/05/2025"), None)
  ]

  const LeadsData: seq<Contact> := [
    Contact(6, "Roberto Lima", "(11) 99999-6666", "roberto@exemplo.com", Lead, Some("Novo"), None, Some("Site")),
    Contact(7, "Fernanda Costa", "(11) 99999-7777", "fernanda@exemplo.com", Lead, Some("Em contato"), None, Some("Instagram")),
    Contact(8, "Lucas Martins", "(11) 99999-8888", "lucas@exemplo.com", Lead, Some("Novo"), None, Some("Facebook")),
    Contact(9, "Carla Rodrigues", "(11) 99999-9999", "carla@exemplo.com", Lead, Some("Em contato"), None, Some("Indicação"))
  ]

  /** `allContacts`: the patients, then the leads. */
  const AllContacts: seq<Contact> := PacientesData + LeadsData

  /** The contacts a tab lists before the search: patients, leads, or (any other tab) all. */
  function TabContacts(tab: string): seq<Contact> {
    if tab == "pacientes" then PacientesData
    else if tab == "leads" then LeadsData
    else AllContacts
  }

  /** The patients' tab lists exactly the patients, the leads' tab exactly the leads, any other tab everyone. */
  lemma TabMeaning(tab: string)
    ensures forall c :: c in TabContacts(tab) <==>
      c in AllContacts
      && (tab == "pacientes" ==> c.tipo == Paciente)
      && (tab == "leads" ==> c.tipo == Lead)
  {
    assert forall c :: c in PacientesData ==> c.tipo == Paciente;
    assert forall c :: c in LeadsData ==> c.tipo == Lead;
  }

  /**
   * A contact matches a search term when the term occurs in its name or its email,
   * ignoring case, or in its phone number exactly as typed.
   */
  predicate Matches(c: Contact, term: string) {
    ContainsIgnoringCase(c.nome, term) || Includes(c.telefone, term) || ContainsIgnoringCase(c.email, term)
  }

  /** Every contact matches the empty term. */
  lemma MatchesEmpty(c: Contact)
    ensures Matches(c, "")
  {
    ContainsEmpty(c.nome);
  }

  /** `getFilteredContacts()`: the tab's contacts that match the term, in list order; an empty term filters nothing. */
  function FilteredContacts(tab: string, term: string): (shown: seq<Contact>)
    ensures forall c :: c in shown <==> c in TabContacts(tab) && Matches(c, term)
    ensures IsSubsequence(shown, TabContacts(tab))
    ensures term == "" ==> shown == TabContacts(tab)
  {
    if term == "" then
      forall c | c in TabContacts(tab) ensures Matches(c, term) {
        MatchesEmpty(c);
      }
      IsSubsequenceReflexive(TabContacts(tab));
      TabContacts(tab)
    else
      Filter(TabContacts(tab), (c: Contact) => Matches(c, term))
  }

  /** `filteredContacts.map(contact => contact.id)`. */
  function Ids(contacts: seq<Contact>): (ids: seq<int>)
    ensures |ids| == |contacts|
    ensures forall i :: 0 <= i < |contacts| ==> ids[i] == contacts[i].id
  {
    seq(|contacts|, i requires 0 <= i < |contacts| => contacts[i].id)
  }

  /** The filter `id => id !== contactId`. */
  function Other(contactId: int): int -> bool {
    (id: int) => id != contactId
  }

  /** `handleSelectContact`: a selected id is removed, any other id is appended. */
  function Toggle(selected: seq<int>, contactId: int): seq<int> {
    if contactId in selected then Filter(selected, Other(contactId)) else selected + [contactId]
  }

  /** After a toggle the id is selected iff it was not before, and every other id is as it was. */
  lemma ToggleMeaning(selected: seq<int>, contactId: int)
    ensures contactId in Toggle(selected, contactId) <==> contactId !in selected
    ensures forall id :: id != contactId ==> (id in Toggle(selected, contactId) <==> id in selected)
  {
  }

  /** A toggle keeps the selection free of duplicates. */
  lemma ToggleNoDup(selected: seq<int>, contactId: int)
    requires NoDup(selected)
    ensures NoDup(Toggle(selected, contactId))
  {
    if contactId in selected {
      FilterNoDup(selected, Other(contactId));
    } else {
      var r := selected + [contactId];
      forall i, j | 0 <= i < j < |r| ensures r[i] != r[j] {
        if j == |selected| {
          assert r[i] == selected[i];
        } else {
          assert r[i] == selected[i] && r[j] == selected[j];
        }
      }
    }
  }

  /**
   * Toggling the same id twice: an id that was not selected leaves the selection exactly
   * as it was; one that was selected comes back, at the end, with the same ids selected.
   */
  lemma ToggleTwice(selected: seq<int>, contactId: int)
    requires NoDup(selected)
    ensures contactId !in selected ==> Toggle(Toggle(selected, contactId), contactId) == selected
    ensures forall id :: id in Toggle(Toggle(selected, contactId), contactId) <==> id in selected
    ensures NoDup(Toggle(Toggle(selected, contactId), contactId))
  {
    ToggleNoDup(selected, contactId);
    ToggleNoDup(Toggle(selected, contactId), contactId);
    ToggleMeaning(selected, contactId);
    ToggleMeaning(Toggle(selected, contactId), contactId);
    if contactId !in selected {
      FilterAppend(selected, [contactId], Other(contactId));
      FilterAll(selected, Other(contactId));
    }
  }

  /** The filter `id => !allContactIds.includes(id)`. */
  function NotIn(ids: seq<int>): int -> bool {
    (id: int) => id !in ids
  }

  /** Every one of the ids is selected (`allContactIds.every(id => selectedContacts.includes(id))`). */
  predicate AllSelected(selected: seq<int>, ids: seq<int>) {
    forall id :: id in ids ==> id in selected
  }

  /**
   * `handleSelectAll` on the ids of the contacts shown: when all are selected they are all
   * removed, otherwise they are added after the selection with duplicates dropped.
   */
  function SelectAll(selected: seq<int>, ids: seq<int>): seq<int> {
    if AllSelected(selected, ids) then Filter(selected, NotIn(ids)) else Dedup(selected + ids)
  }

  /**
   * When every shown id is selected, select-all removes exactly the shown ids and keeps the
   * others in order; with nothing shown the selection is unchanged.
   */
  lemma SelectAllWhenAllSelected(selected: seq<int>, ids: seq<int>)
    requires AllSelected(selected, ids)
    ensures forall id :: id in SelectAll(selected, ids) <==> id in selected && id !in ids
    ensures IsSubsequence(SelectAll(selected, ids), selected)
    ensures ids == [] ==> SelectAll(selected, ids) == selected
  {
    if ids == [] {
      FilterAll(selected, NotIn(ids));
    }
  }

  /**
   * Otherwise select-all keeps the previous selection, unchanged, at the front, and
   * afterwards every shown id is selected and nothing else was added.
   */
  lemma SelectAllWhenSomeUnselected(selected: seq<int>, ids: seq<int>)
    requires NoDup(selected)
    requires !AllSelected(selected, ids)
    ensures |selected| <= |SelectAll(selected, ids)| && SelectAll(selected, ids)[..|selected|] == selected
    ensures AllSelected(SelectAll(selected, ids), ids)
    ensures forall id :: id in SelectAll(selected, ids) <==> id in selected || id in ids
  {
    DedupKeepsPrefix(selected, ids);
  }

  /**
   * Select-all keeps the selection free of duplicates, and with something shown it flips
   * the button's state: afterwards every shown id is selected iff that was not so before.
   */
  lemma SelectAllNoDup(selected: seq<int>, ids: seq<int>)
    requires NoDup(selected)
    ensures NoDup(SelectAll(selected, ids))
    ensures ids != [] ==> (AllSelected(SelectAll(selected, ids), ids) <==> !AllSelected(selected, ids))
  {
    if AllSelected(selected, ids) {
      FilterNoDup(selected, NotIn(ids));
      if ids != [] {
        var once := Filter(selected, NotIn(ids));
        var first := ids[0];
        assert first in ids && first !in once;
      }
    } else {
      SelectAllWhenSomeUnselected(selected, ids);
    }
  }

  /** `handleContinue`: an empty selection is an error; otherwise the selected contacts, in all-contacts order. */
  function Continue(selected: seq<int>): (r: Result<seq<Contact>, string>)
    ensures r.Err? <==> selected == []
    ensures r.Ok? ==> (forall c :: c in r.value <==> c in AllContacts && c.id in selected)
    ensures r.Ok? ==> IsSubsequence(r.value, AllContacts)
  {
    if |selected| == 0 then Err("Nenhum destinatário selecionado")
    else Ok(Filter(AllContacts, (c: Contact) => c.id in selected))
  }

  /** The Continue button is disabled exactly when continuing would report the error. */
  predicate ContinueDisabled(selected: seq<int>) {
    |selected| == 0
  }

  lemma ContinueDisabledIff(selected: seq<int>)
    ensures ContinueDisabled(selected) <==> Continue(selected).Err?
  {
  }

  /** The page's state. */
  class Destinatarios {
    var searchTerm: string
    var selectedContacts: seq<int>
    var activeTab: string

    /** The selection never holds an id twice. */
    predicate Valid()
      reads this
    {
      NoDup(selectedContacts)
    }

    constructor ()
      ensures searchTerm == "" && selectedContacts == [] && activeTab == "todos"
      ensures Valid()
    {
      searchTerm := "";
      selectedContacts := [];
      activeTab := "todos";
    }

    /** The contacts listed now. */
    function Shown(): seq<Contact>
      reads this
    {
      FilteredContacts(activeTab, searchTerm)
    }

    method SetSearchTerm(term: string)
      modifies this
      ensures searchTerm == term
      ensures selectedContacts == old(selectedContacts) && activeTab == old(activeTab)
    {
      searchTerm := term;
    }

    method SetActiveTab(tab: string)
      modifies this
      ensures activeTab == tab
      ensures selectedContacts == old(selectedContacts) && searchTerm == old(searchTerm)
    {
      activeTab := tab;
    }

    /** A contact's checkbox. */
    method HandleSelectContact(contactId: int)
      requires Valid()
      modifies this
      ensures selectedContacts == Toggle(old(selectedContacts), contactId)
      ensures searchTerm == old(searchTerm) && activeTab == old(activeTab)
      ensures Valid()
    {
      ToggleNoDup(selectedContacts, contactId);
      selectedContacts := Toggle(selectedContacts, contactId);
    }

    /** The select-all button, over the contacts listed now. */
    method HandleSelectAll()
      requires Valid()
      modifies this
      ensures selectedContacts == SelectAll(old(selectedContacts), Ids(old(Shown())))
      ensures searchTerm == old(searchTerm) && activeTab == old(activeTab)
      ensures Valid()
    {
      var ids := Ids(Shown());
      SelectAllNoDup(selectedContacts, ids);
      selectedContacts := SelectAll(selectedContacts, ids);
    }

    /** The Continue button: the contacts to pass on, or the error the toast reports. */
    method HandleContinue() returns (r: Result<seq<Contact>, string>)
      ensures r == Continue(selectedContacts)
      ensures r.Err? <==> selectedContacts == []
    {
      r := Continue(selectedContacts);
    }
  }
}
