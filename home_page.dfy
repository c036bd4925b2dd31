/** The contact list page: the search filter over the cached contacts and
    the confirmation step of deleting a contact. */
module HomePage {
  import opened Outcomes
  import opened Seqs
  import opened Text
  import opened Contacts
  import opened ContactsContext

  /** The search callback: the query occurs, ignoring case, in the name or
      the email, or occurs as typed in the phone number. */
  predicate MatchesQuery(c: Contact, query: string)
  {
    || Contains(ToLower(c.nama), ToLower(query))
    || Contains(ToLower(c.email), ToLower(query))
    || Contains(c.telepon, query)
  }

  /** The callback `contact => ...` handed to `filter`. */
  function Matcher(query: string): Contact -> bool
  {
    (c: Contact) => MatchesQuery(c, query)
  }

  /** `filteredContacts`: the contacts the search keeps, in list order. */
  function FilterContacts(contacts: seq<Contact>, query: string): (r: seq<Contact>)
    ensures |r| <= |contacts|
    ensures forall i :: 0 <= i < |r| ==> r[i] in contacts && MatchesQuery(r[i], query)
    ensures forall i :: 0 <= i < |contacts| && MatchesQuery(contacts[i], query) ==> contacts[i] in r
  {
    Filter(contacts, Matcher(query))
  }

  /** The filtered list is the cached list with some contacts left out, in
      the same order and each kept one as often as it occurs. */
  lemma FilterKeepsOrder(contacts: seq<Contact>, query: string, c: Contact)
    ensures IsSubsequence(FilterContacts(contacts, query), contacts)
    ensures multiset(FilterContacts(contacts, query))[c]
            == if MatchesQuery(c, query) then multiset(contacts)[c] else 0
  {
    FilterIsSubsequence(contacts, Matcher(query));
    FilterMultiplicity(contacts, Matcher(query), c);
  }

  /** An empty query keeps every contact. */
  lemma EmptyQueryKeepsAll(contacts: seq<Contact>)
    ensures FilterContacts(contacts, "") == contacts
  {
    forall i | 0 <= i < |contacts| ensures Matcher("")(contacts[i]) {
      ContainsEmpty(contacts[i].telepon);
    }
    FilterKeepsAll(contacts, Matcher(""));
  }

  /** The page's state: the search text and the contact awaiting deletion. */
  class HomePageState {
    /** The contacts state holder the page reads and deletes through. */
    const store: ContactProvider
    var searchQuery: string
    var deleteTarget: Option<Contact>

    constructor (store: ContactProvider)
      ensures this.store == store && searchQuery == "" && deleteTarget == None
    {
      this.store := store;
      searchQuery := "";
      deleteTarget := None;
    }

    /** The list shown: the cached contacts the current query keeps. */
    function Shown(): (r: seq<Contact>)
      reads this, store
      ensures |r| <= |store.contacts|
    {
      FilterContacts(store.contacts, searchQuery)
    }

    /** `handleDeleteClick`: remember which contact to delete. */
    method HandleDeleteClick(c: Contact)
      modifies this
      ensures deleteTarget == Some(c) && searchQuery == old(searchQuery)
    {
      deleteTarget := Some(c);
    }

    /** `handleDeleteConfirm`: without a target nothing happens; with one,
        its id is deleted (the cache reloads) and the target is cleared. */
    method HandleDeleteConfirm()
      modifies this, store, store.service
      ensures old(deleteTarget).None? ==>
        && deleteTarget == None
        && store.service.stored == old(store.service.stored)
        && store.contacts == old(store.contacts) && store.loading == old(store.loading)
      ensures old(deleteTarget).Some? ==>
        && deleteTarget == None
        && store.service.FindAll() == RemoveId(old(store.service.FindAll()), old(deleteTarget).value.id)
        && store.contacts == store.service.FindAll() && !store.loading
      ensures searchQuery == old(searchQuery)
    {
      if deleteTarget.None? {
        return;
      }
      store.DeleteContact(deleteTarget.value.id);
      deleteTarget := None;
    }
  }
}
