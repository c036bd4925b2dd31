/** The contacts state holder: a cached copy of the stored list and a
    `loading` flag, reloaded in full after every change made through it. */
module ContactsContext {
  import opened Outcomes
  import opened Seqs
  import opened Contacts

  class ContactProvider {
    /** The service the holder delegates to. */
    const service: ContactsService
    /** The cached list the views read. */
    var contacts: seq<Contact>
    var loading: bool

    /** The initial state: an empty cache, still loading. */
    constructor (service: ContactsService)
      ensures this.service == service
      ensures contacts == [] && loading
    {
      this.service := service;
      contacts := [];
      loading := true;
    }

    /** `loadContacts` (also what the mount effect runs): the cache becomes
        the stored list. */
    method LoadContacts()
      modifies this
      ensures contacts == service.FindAll() && !loading
    {
      loading := true;
      var data := service.FindAll();
      contacts := data;
      loading := false;
    }

    /** `createContact`: create through the service, then reload. */
    method CreateContact(data: ContactFormData, encode: File -> string, newId: string, now: string)
      requires data.fotoProfil.Upload?
      modifies this, service
      ensures var before, after := old(service.FindAll()), service.FindAll();
        && |after| == |before| + 1 && after[..|before|] == before
        && after[|before|].id == newId && after[|before|].createdAt == now
        && after[|before|].nama == data.nama && after[|before|].telepon == data.telepon
        && after[|before|].email == data.email && after[|before|].lokasi == data.lokasi
        && after[|before|].fotoProfil == encode(data.fotoProfil.file)
        && after[|before|].updatedAt == None
      ensures contacts == service.FindAll() && !loading
    {
      var c := service.Create(data, encode, newId, now);
      LoadContacts();
    }

    /** `updateContact`: update through the service, then reload; a failure
        is passed on and the cache is left as it was. */
    method UpdateContact(id: string, data: ContactFormData, oldPhoto: Option<string>,
                         encode: File -> string, now: string)
      returns (r: Result<()>)
      modifies this, service
      ensures r.Err? <==> !IdPresent(old(service.FindAll()), id)
      ensures r.Err? ==> r.error == NotFoundMessage
      ensures r.Err? ==> service.stored == old(service.stored)
      ensures r.Err? ==> contacts == old(contacts) && loading == old(loading)
      ensures r.Ok? ==>
        var before, after := old(service.FindAll()), service.FindAll();
        var k := FindIndex(before, HasId(id));
        && 0 <= k < |before| && |after| == |before|
        && service.stored == Some(before[k := after[k]])
        && after[k].id == id && after[k].createdAt == before[k].createdAt
        && after[k].nama == data.nama && after[k].telepon == data.telepon && after[k].email == data.email
        && after[k].lokasi == data.lokasi && after[k].updatedAt == Some(now)
        && (data.fotoProfil.Upload? ==> after[k].fotoProfil == encode(data.fotoProfil.file))
        && (data.fotoProfil.NotAFile? && oldPhoto.Some? ==> after[k].fotoProfil == oldPhoto.value)
        && (data.fotoProfil.NotAFile? && oldPhoto.None? ==> after[k].fotoProfil == before[k].fotoProfil)
      ensures r.Ok? ==> contacts == service.FindAll() && !loading
    {
      var u := service.Update(id, data, oldPhoto, encode, now);
      if u.Err? {
        return Err(u.error);
      }
      LoadContacts();
      r := Ok(());
    }

    /** `deleteContact`: delete through the service, then reload. */
    method DeleteContact(id: string)
      modifies this, service
      ensures service.FindAll() == RemoveId(old(service.FindAll()), id)
      ensures contacts == service.FindAll() && !loading
    {
      service.Delete(id);
      LoadContacts();
    }

    /** `getContactById`: the first cached contact with that id; the
        service is not consulted. */
    function GetContactById(id: string): (r: Option<Contact>)
      reads this
      ensures r.None? <==> !IdPresent(contacts, id)
      ensures r.Some? ==> exists k :: 0 <= k < |contacts| && contacts[k] == r.value
                                      && FirstMatch(contacts, HasId(id), k)
    {
      Find(contacts, HasId(id))
    }
  }
}
