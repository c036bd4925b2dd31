/** The contact records and the contacts service: create, update, find and
    delete over the list persisted under the storage key "contacts".

    The browser's storage is the field `stored` (absent key = `None`); the
    external helpers are parameters: the photo encoder `encode`, the
    generated id `newId` and the current timestamp `now`. */
module Contacts {
  import opened Outcomes
  import opened Seqs

  /** A geographic position. The application stores two floating-point
      numbers; they are only copied, so integers stand in for them. */
  datatype Location = Location(lat: int, lng: int)

  /** An uploaded image file, as far as the application looks at it. */
  datatype File = File(name: string, size: nat, mimeType: string)

  /** The value of the photo form field: a `File`, or anything else (nothing
      chosen, or the previously stored text). */
  datatype PhotoField = Upload(file: File) | NotAFile

  /** The data a contact form submits. */
  datatype ContactFormData = ContactFormData(
    nama: string,
    telepon: string,
    email: string,
    fotoProfil: PhotoField,
    lokasi: Location)

  /** A stored contact; `fotoProfil` is the encoded photo (a data URI). */
  datatype Contact = Contact(
    id: string,
    nama: string,
    telepon: string,
    email: string,
    fotoProfil: string,
    lokasi: Location,
    createdAt: string,
    updatedAt: Option<string>)

  const NotFoundMessage := "Kontak tidak ditemukan"

  /** The callback `c => c.id === id`. */
  function HasId(id: string): Contact -> bool
  {
    (c: Contact) => c.id == id
  }

  /** The callback `c => c.id !== id`. */
  function OtherId(id: string): Contact -> bool
  {
    (c: Contact) => c.id != id
  }

  /** Some contact in `cs` has the id `id`. */
  predicate IdPresent(cs: seq<Contact>, id: string)
  {
    exists i :: 0 <= i < |cs| && cs[i].id == id
  }

  /** The first contact with the given id, if any (`find`). */
  function FindById(cs: seq<Contact>, id: string): (r: Option<Contact>)
    ensures r.None? <==> !IdPresent(cs, id)
    ensures r.Some? ==> exists k :: 0 <= k < |cs| && cs[k] == r.value && FirstMatch(cs, HasId(id), k)
  {
    Find(cs, HasId(id))
  }

  /** The list without any contact that has the id `id` (`filter`). */
  function RemoveId(cs: seq<Contact>, id: string): (r: seq<Contact>)
    ensures !IdPresent(r, id)
    ensures forall i :: 0 <= i < |cs| && cs[i].id != id ==> cs[i] in r
    ensures forall i :: 0 <= i < |r| ==> r[i] in cs
  {
    Filter(cs, OtherId(id))
  }

  /** The contacts service, over the storage key "contacts". */
  class ContactsService {
    /** The list stored under "contacts"; `None` while the key is absent. */
    var stored: Option<seq<Contact>>

    /** Starts from whatever the storage holds. */
    constructor (initial: Option<seq<Contact>>)
      ensures stored == initial
    {
      stored := initial;
    }

    /** `findAll`: the stored list, where a missing key reads as empty. */
    function FindAll(): (r: seq<Contact>)
      reads this
      ensures stored.None? ==> r == []
      ensures stored.Some? ==> r == stored.value
    {
      if stored.Some? then stored.value else []
    }

    /** `findById`: the first stored contact with that id. */
    function FindByIdInStore(id: string): (r: Option<Contact>)
      reads this
      ensures r.None? <==> !IdPresent(FindAll(), id)
      ensures r.Some? ==> exists k :: 0 <= k < |FindAll()| && FindAll()[k] == r.value
                                      && FirstMatch(FindAll(), HasId(id), k)
    {
      FindById(FindAll(), id)
    }

    /** `create`: appends a new record built from the form and returns it. */
    method Create(data: ContactFormData, encode: File -> string, newId: string, now: string)
      returns (c: Contact)
      requires data.fotoProfil.Upload?
      modifies this
      ensures stored == Some(old(FindAll()) + [c])
      ensures c.id == newId && c.createdAt == now && c.updatedAt == None
      ensures c.nama == data.nama && c.telepon == data.telepon && c.email == data.email
      ensures c.lokasi == data.lokasi && c.fotoProfil == encode(data.fotoProfil.file)
    {
      var base64Image := encode(data.fotoProfil.file);
      c := Contact(newId, data.nama, data.telepon, data.email, base64Image, data.lokasi, now, None);
      var contacts := FindAll();
      contacts := contacts + [c];
      stored := Some(contacts);
    }

    /** `update`: replaces the first record with that id, or fails when
        there is none. */
    method Update(id: string, data: ContactFormData, oldPhoto: Option<string>,
                  encode: File -> string, now: string)
      returns (r: Result<Contact>)
      modifies this
      ensures r.Err? <==> !IdPresent(old(FindAll()), id)
      ensures r.Err? ==> r.error == NotFoundMessage && stored == old(stored)
      ensures r.Ok? ==>
        var before := old(FindAll());
        var k := FindIndex(before, HasId(id));
        && 0 <= k < |before|
        && stored == Some(before[k := r.value])
        && r.value.id == before[k].id == id && r.value.createdAt == before[k].createdAt
        && r.value.nama == data.nama && r.value.telepon == data.telepon && r.value.email == data.email
        && r.value.lokasi == data.lokasi && r.value.updatedAt == Some(now)
        // the photo rule: a new file is encoded, else the photo passed along, else the stored one
        && (data.fotoProfil.Upload? ==> r.value.fotoProfil == encode(data.fotoProfil.file))
        && (data.fotoProfil.NotAFile? && oldPhoto.Some? ==> r.value.fotoProfil == oldPhoto.value)
        && (data.fotoProfil.NotAFile? && oldPhoto.None? ==> r.value.fotoProfil == before[k].fotoProfil)
    {
      var contacts := FindAll();
      var index := FindIndex(contacts, HasId(id));
      if index == -1 {
        return Err(NotFoundMessage);
      }
      var fotoProfil := if data.fotoProfil.Upload? then encode(data.fotoProfil.file)
                        else if oldPhoto.Some? then oldPhoto.value
                        else contacts[index].fotoProfil;
      var updated := contacts[index].(nama := data.nama, telepon := data.telepon, email := data.email,
                                      lokasi := data.lokasi, fotoProfil := fotoProfil, updatedAt := Some(now));
      contacts := contacts[index := updated];
      stored := Some(contacts);
      return Ok(updated);
    }

    /** `delete`: keeps every record whose id differs, and writes the list
        back (so a missing key becomes an empty list). */
    method Delete(id: string)
      modifies this
      ensures stored == Some(RemoveId(old(FindAll()), id))
    {
      var contacts := Filter(FindAll(), OtherId(id));
      stored := Some(contacts);
    }
  }

  // Properties of the operations, stated on the list they act on.

  /** With an id not used before, the created record is what `findById`
      returns right afterwards. */
  lemma FindAfterCreate(cs: seq<Contact>, c: Contact)
    requires !IdPresent(cs, c.id)
    ensures FindById(cs + [c], c.id) == Some(c)
  {
    var s := cs + [c];
    assert FirstMatch(s, HasId(c.id), |cs|);
    FindIndexIsFirstMatch(s, HasId(c.id), |cs|);
  }

  /** An update leaves the length and every other position unchanged, and
      `findById` then returns the updated record. */
  lemma UpdateReplacesFirst(cs: seq<Contact>, id: string, u: Contact)
    requires IdPresent(cs, id) && u.id == id
    ensures var k := FindIndex(cs, HasId(id));
      && |cs[k := u]| == |cs|
      && (forall i :: 0 <= i < |cs| && i != k ==> cs[k := u][i] == cs[i])
      && FindById(cs[k := u], id) == Some(u)
  {
    var k := FindIndex(cs, HasId(id));
    var s := cs[k := u];
    assert FirstMatch(s, HasId(id), k);
    FindIndexIsFirstMatch(s, HasId(id), k);
  }

  /** Deleting an id that is absent changes nothing. */
  lemma DeleteAbsentIsNoop(cs: seq<Contact>, id: string)
    requires !IdPresent(cs, id)
    ensures RemoveId(cs, id) == cs
  {
    FilterKeepsAll(cs, OtherId(id));
  }

  /** Deleting twice is deleting once. */
  lemma DeleteIdempotent(cs: seq<Contact>, id: string)
    ensures RemoveId(RemoveId(cs, id), id) == RemoveId(cs, id)
  {
    FilterIdempotent(cs, OtherId(id));
  }

  /** `delete` keeps the other records in their order and with their
      multiplicity, and removes every record with that id. */
  lemma DeleteKeepsOthersInOrder(cs: seq<Contact>, id: string, c: Contact)
    ensures IsSubsequence(RemoveId(cs, id), cs)
    ensures multiset(RemoveId(cs, id))[c] == if c.id == id then 0 else multiset(cs)[c]
  {
    FilterIsSubsequence(cs, OtherId(id));
    FilterMultiplicity(cs, OtherId(id), c);
  }

  /** After `delete`, `findById` finds nothing. */
  lemma FindAfterDelete(cs: seq<Contact>, id: string)
    ensures FindById(RemoveId(cs, id), id) == None
  {
  }

  /** Creating a record with a fresh id and then deleting it restores the list. */
  lemma DeleteUndoesCreate(cs: seq<Contact>, c: Contact)
    requires !IdPresent(cs, c.id)
    ensures RemoveId(cs + [c], c.id) == cs
  {
    FilterAppend(cs, c, OtherId(c.id));
    DeleteAbsentIsNoop(cs, c.id);
  }
}
