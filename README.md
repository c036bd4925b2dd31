# Contact app data layer, in Dafny

A model of the data layer of a browser contact-management application.
Users register and sign in, then create, list, search, edit and delete contact
records: name (`nama`), phone (`telepon`), email, profile photo (`fotoProfil`)
and location (`lokasi`). The application has no server. Users, the session and
the contacts all live in the browser's key-value storage.

The model covers:

- **Contacts service** (`Contacts.ContactsService`). A class whose field
  `stored` is the storage key `contacts`; `None` means the key is absent.
  - `create` appends a record.
  - `update` replaces the first record with that id and follows the
    three-way photo rule.
  - `findAll` and `findById` read the list.
  - `delete` filters the list.
- **Auth service** (`Auth.AuthService`). The keys `users` and `session` are
  fields of the class.
  - `register` refuses an email that is already stored.
  - `login` needs an exact email and password match and writes the
    single session slot.
  - `logout` clears the session slot.
- **State holders** (`ContactsContext.ContactProvider`,
  `AuthContext.AuthProvider`). These hold the cached contact list with its
  `loading` flag, and the held session with its `isLoading` flag.
  - The contacts cache is reloaded in full after every change made
    through the holder.
  - The held session follows login and logout.
- **Validation rules** (`ContactSchema`, `AuthSchema`). Each check of a
  field reports its own issue: lengths, digits only, file size and MIME
  type, a required location, and the password confirmation. A password
  mismatch is reported on `confirmPassword`.
- **View helpers**. The home page's search filter, the home page's
  delete-confirmation step (`HomePage`) and the avatar initials
  (`ContactCard`). `src/components/ContactTable.tsx:46-51` computes the
  same initials as `ContactCard.Initials`.

The model replaces the external helpers with parameters:

- the photo encoder `fileToBase64` becomes `encode: File -> string`;
- `crypto.randomUUID` becomes the `newId` and `token` arguments;
- the timestamp `new Date().toISOString()` becomes the `now` argument;
- the validation library's email-syntax check becomes `isEmail: string -> bool`.

`Seqs` models the array methods the code relies on: `findIndex`, `find` and
`filter`. `Text` models the string methods: `toLowerCase`, `toUpperCase` and
`includes`.

## Model

| member | source | states |
|---|---|---|
| Seqs.FindIndex | src/features/contacts/contacts.service.ts:43 | The result is -1 exactly when no element matches. Otherwise it is a matching position, and no element before it matches. |
| Seqs.Find | src/features/contacts/contacts.service.ts:75 | The result is absent exactly when no element matches. Otherwise it is the element at the first matching position. |
| Seqs.Filter | src/features/contacts/contacts.service.ts:79 | The result is no longer than the input. Every element of the result is an input element that passes. Every input element that passes is in the result. |
| Seqs.FilterIsSubsequence | src/features/contacts/contacts.service.ts:79 | The filtered list keeps the input's order: it is a subsequence of the input. |
| Seqs.FilterMultiplicity | src/features/contacts/contacts.service.ts:79 | A kept element occurs as often as in the input. A dropped element does not occur. |
| Seqs.FilterKeepsAll | src/features/contacts/contacts.service.ts:79 | When every element passes, filtering returns the input unchanged. |
| Seqs.FilterIdempotent | src/features/contacts/contacts.service.ts:79 | Filtering twice with the same callback equals filtering once. |
| Seqs.FilterAppend | src/features/contacts/contacts.service.ts:79 | Filtering `s + [x]` gives the filtered `s`, followed by `x` if `x` passes. |
| Text.ToLower | src/pages/main/HomePage.tsx:31-32 | Keeps the length and lower-cases each character. |
| Text.ToUpper | src/components/ContactCard.tsx:19 | Keeps the length and upper-cases each character. |
| Text.Contains | src/pages/main/HomePage.tsx:31-33 | True exactly when the needle occurs at some position of the haystack. |
| Text.ContainsEmpty | src/pages/main/HomePage.tsx:29-34 | Every string contains the empty string. |
| Contacts.FindById | src/features/contacts/contacts.service.ts:74-76 | Absent exactly when no record has the id. Otherwise it is the record at the first position with that id. |
| Contacts.RemoveId | src/features/contacts/contacts.service.ts:78-81 | No remaining record has the id. Every record with another id remains. Nothing else is added. |
| Contacts.ContactsService.constructor | src/features/contacts/contacts.service.ts:4 | Starts from whatever the `contacts` key holds, including an absent key. |
| Contacts.ContactsService.FindAll | src/features/contacts/contacts.service.ts:6-9 | An absent `contacts` key reads as the empty list. Otherwise it reads as the stored list. |
| Contacts.ContactsService.FindByIdInStore | src/features/contacts/contacts.service.ts:74-76 | Absent exactly when no stored record has the id. Otherwise it is the stored record at the first position with that id. |
| Contacts.ContactsService.Create | src/features/contacts/contacts.service.ts:17-35 | The stored list becomes the old list plus one record at the end. That record, which is returned, has the generated id and `createdAt`, no `updatedAt`, the form's `nama`, `telepon`, `email` and `lokasi`, and the encoded photo. |
| Contacts.ContactsService.Update | src/features/contacts/contacts.service.ts:37-68 | Fails with "Kontak tidak ditemukan" exactly when no record has the id, and then writes nothing. Otherwise it replaces only the first record with that id. The new record keeps `id` and `createdAt`, takes the form's fields and a new `updatedAt`. Its photo is the encoded new file, else `oldPhoto` if given, else the stored photo. |
| Contacts.ContactsService.Delete | src/features/contacts/contacts.service.ts:78-81 | Writes back the list without the records that have the id. |
| Contacts.FindAfterCreate | src/features/contacts/contacts.service.ts:18-34 | If the new id is not already used, `findById` returns the created record right after `create`. |
| Contacts.UpdateReplacesFirst | src/features/contacts/contacts.service.ts:43-65 | The update keeps the length and every other position. After it, `findById` returns the updated record. |
| Contacts.DeleteAbsentIsNoop | src/features/contacts/contacts.service.ts:78-81 | Deleting an id that is not in the list leaves the list unchanged. |
| Contacts.DeleteIdempotent | src/features/contacts/contacts.service.ts:78-81 | Deleting the same id twice equals deleting it once. |
| Contacts.DeleteKeepsOthersInOrder | src/features/contacts/contacts.service.ts:78-81 | The remaining records keep their order and multiplicity. Records with the id are gone. |
| Contacts.FindAfterDelete | src/features/contacts/contacts.service.ts:74-81 | After `delete`, `findById` with that id finds nothing. |
| Contacts.DeleteUndoesCreate | src/features/contacts/contacts.service.ts:17-81 | If the id is fresh, creating a record and then deleting its id gives back the original list. |
| ContactsContext.ContactProvider.constructor | src/features/contacts/contacts.context.tsx:22-23 | The cache starts empty and `loading` starts true. |
| ContactsContext.ContactProvider.LoadContacts | src/features/contacts/contacts.context.tsx:25-34 | The cache becomes exactly the stored list, and `loading` ends false. |
| ContactsContext.ContactProvider.CreateContact | src/features/contacts/contacts.context.tsx:36-39 | The store gains one record at the end. It carries the new id, the creation time, the form's fields and the encoded photo, and has no `updatedAt`. Then the cache equals the store. |
| ContactsContext.ContactProvider.UpdateContact | src/features/contacts/contacts.context.tsx:41-48 | A failed update passes on "Kontak tidak ditemukan". It leaves the store, the cache and `loading` unchanged. After a successful update, only the first matching position of the store changes. That record keeps its id and `createdAt`, takes the form's fields, gets `updatedAt` set to the given time, and follows the photo rule: a new file is encoded, else the passed-along photo is kept, else the stored one. The cache then equals the store. |
| ContactsContext.ContactProvider.DeleteContact | src/features/contacts/contacts.context.tsx:50-53 | The store loses the records that have the id. Then the cache equals the store. |
| ContactsContext.ContactProvider.GetContactById | src/features/contacts/contacts.context.tsx:55-57 | Returns the first cached record with the id, or nothing. It reads only the cache. |
| ContactSchema.NamaIssues | src/features/contacts/contacts.schema.ts:12-15 | No issue exactly when the name has 1 to 100 characters. Every issue is on `nama`. |
| ContactSchema.TeleponIssues | src/features/contacts/contacts.schema.ts:17-22 | No issue exactly when the phone is all digits 0-9 and has 10 to 15 characters. Any non-digit produces the digits-only issue. |
| ContactSchema.EmailIssues | src/features/contacts/contacts.schema.ts:24 | No issue exactly when the email passes the syntax check and is non-empty. |
| ContactSchema.FotoIssues | src/features/contacts/contacts.schema.ts:26-33 | No issue exactly when the value is a file of at most 1 048 576 bytes whose type is image/jpeg, image/jpg, image/png or image/webp. A non-file gives only the "Foto profil wajib diupload" issue. |
| ContactSchema.LokasiIssues | src/features/contacts/contacts.schema.ts:35-38 | No issue exactly when a pair of numbers is present. |
| ContactSchema.ParseContact | src/features/contacts/contacts.schema.ts:11-39 | The form is accepted exactly when every field is accepted. Accepted data copies the input fields. A rejection carries exactly the field-by-field issue list, which is never empty. |
| ContactSchema.IssueOnFieldIffInvalid | src/features/contacts/contacts.schema.ts:11-39 | A field has an issue exactly when that field fails its own rule. |
| ContactSchema.LettersInPhoneRejected | src/features/contacts/contacts.schema.ts:17-22 | The phone "abc123" gets the digits-only issue, so the form is rejected. |
| Auth.Authenticate | src/features/auth/auth.service.ts:38-40 | Absent exactly when no user matches both email and password. Otherwise it is the first such user. |
| Auth.AuthService.constructor | src/features/auth/auth.service.ts:3-4 | Starts from whatever the `users` and `session` keys hold. |
| Auth.AuthService.GetUsers | src/features/auth/auth.service.ts:6-7 | An absent `users` key reads as the empty list. |
| Auth.AuthService.Register | src/features/auth/auth.service.ts:14-32 | Fails with "Email sudah terdaftar" exactly when a stored user has the same email, and then the users are unchanged. Otherwise it appends exactly one user with the given id, email and password. It never touches the session. |
| Auth.AuthService.Login | src/features/auth/auth.service.ts:34-56 | Fails with "Email atau password salah" exactly when no user matches both fields, and then the session is untouched. Otherwise it stores and returns a session with the first matching user's id and email and no password. It never touches the users. |
| Auth.AuthService.GetSession | src/features/auth/auth.service.ts:58-59 | Yields the stored session, and nothing when the `session` key is absent. |
| Auth.AuthService.Logout | src/features/auth/auth.service.ts:61-63 | After logout, `getSession` yields nothing. The users are unchanged. |
| Auth.RegisteredEmailIsTaken | src/features/auth/auth.service.ts:19-31 | After a user is appended, their email counts as registered, so a second registration fails. |
| Auth.LoginAfterRegister | src/features/auth/auth.service.ts:19-44 | After registering a new email with a password, logging in with that pair signs in exactly the new user. |
| Auth.WrongPasswordFails | src/features/auth/auth.service.ts:38-44 | A wrong password or an unknown email matches no user. |
| Auth.RegisterThenLogin | src/features/auth/auth.service.ts:14-56 | For an unused email, `register` then `login` succeeds. The stored session is the new user's. |
| AuthSchema.PasswordIssues | src/features/auth/auth.schema.ts:11-12 | No issue exactly when the password has at least 6 characters. Every issue is on the given field. |
| AuthSchema.LoginIssues | src/features/auth/auth.schema.ts:3-6 | Login is accepted exactly when the email is valid and the password has at least 6 characters. |
| AuthSchema.RegisterIssues | src/features/auth/auth.schema.ts:8-17 | Registration is accepted exactly when the email is valid, both passwords have at least 6 characters, and the two are equal. |
| AuthSchema.AcceptedRegistrationMatches | src/features/auth/auth.schema.ts:14-17 | An accepted registration has `password == confirmPassword`. |
| AuthSchema.MismatchBlamesConfirmation | src/features/auth/auth.schema.ts:14-17 | The mismatch issue is on `confirmPassword` and appears exactly when the passwords differ. `password` only ever gets the too-short issue. |
| AuthSchema.OnlyMismatchReported | src/features/auth/auth.schema.ts:8-17 | With a valid email and long enough passwords that differ, the mismatch on `confirmPassword` is the only issue. |
| AuthContext.AuthProvider.constructor | src/features/auth/auth.context.tsx:9-10 | The held session starts empty and `isLoading` starts true. |
| AuthContext.AuthProvider.Hydrate | src/features/auth/auth.context.tsx:12-16 | The held session becomes `getSession()`, and `isLoading` becomes false. |
| AuthContext.AuthProvider.Login | src/features/auth/auth.context.tsx:18-21 | On success, the held session is the session the service stored. On failure, the error passes on, and both the held session and the stored session are unchanged. |
| AuthContext.AuthProvider.Register | src/features/auth/auth.context.tsx:23-25 | Delegates to `register`. The held session and the stored session never change. |
| AuthContext.AuthProvider.Logout | src/features/auth/auth.context.tsx:27-30 | Both the stored session and the held session become empty. The users and `isLoading` are unchanged. |
| HomePage.FilterContacts | src/pages/main/HomePage.tsx:29-34 | Keeps a contact exactly when the lower-cased query occurs in the lower-cased name or email, or the raw query occurs in the raw phone. It never shows more contacts than the cache holds. |
| HomePage.FilterKeepsOrder | src/pages/main/HomePage.tsx:29-34 | The filtered list is an order-preserving subsequence of the cached contacts, with kept contacts at their full multiplicity. |
| HomePage.EmptyQueryKeepsAll | src/pages/main/HomePage.tsx:29-34 | An empty query keeps every contact. |
| HomePage.HomePageState.constructor | src/pages/main/HomePage.tsx:23-24 | The query starts empty and there is no delete target. |
| HomePage.HomePageState.Shown | src/pages/main/HomePage.tsx:91 | The displayed filtered count is never more than the total count. |
| HomePage.HomePageState.HandleDeleteClick | src/pages/main/HomePage.tsx:36-38 | Records the contact as the delete target. |
| HomePage.HomePageState.HandleDeleteConfirm | src/pages/main/HomePage.tsx:40-46 | With no target, nothing changes. With a target, its id is deleted from the store, the cache is reloaded, and the target is cleared. |
| ContactCard.Split | src/components/ContactCard.tsx:16 | Always gives at least one piece. No piece contains a space. |
| ContactCard.Initials | src/components/ContactCard.tsx:15-20 | Initials are at most 2 characters long. |
| ContactCard.JoinSplit | src/components/ContactCard.tsx:16 | Joining the pieces with single spaces gives back the name. |
| ContactCard.HeadsAreWordStarts | src/components/ContactCard.tsx:16-18 | The first characters of the pieces are exactly the non-space characters that start the name or follow a space. Empty pieces, for example from doubled spaces, add nothing. |
| ContactCard.InitialsFromWordStarts | src/components/ContactCard.tsx:15-20 | The initials are the first two word-start characters of the name, in order, upper-cased. |
| ContactCard.OneWordInitial | src/components/ContactCard.tsx:15-20 | A one-word name gives its first letter in upper case. |

## Left out

- Browser storage and JSON. The storage keys are fields holding values. Serialisation is not modelled. A stored empty string, which `getStoredContacts` treats like an absent key, is therefore not modelled either.
- The helpers that are not part of this model are parameters:
  - `fileToBase64` from `src/lib/upload` becomes `encode`;
  - `crypto.randomUUID` becomes the `newId` and `token` arguments;
  - `new Date().toISOString()` becomes the `now` argument.
- Id freshness. The code never checks that ids are unique. Lemmas that need a fresh id state it as a precondition.
- Timing. The 800 ms delays in `register` and `login` are not modelled, and neither is async interleaving. Interleaving lets concurrent read-modify-write calls lose each other's writes. The model is sequential.
- Locations. `lat` and `lng` are floating-point numbers in the application and integers here. They are only copied, and the schema checks only that they are present.
- Email syntax. The validation library decides it; the model takes it as the parameter `isEmail`.
- Validation messages. The model does not reproduce the validation library's default messages; an issue carries `None` where the application uses them.
- Non-string form values. The model does not represent the library's type errors for non-string fields. A missing or non-numeric `lokasi` is a single `None`.
- `updateContactSchema`. `src/pages/main/UpdateContactPage.tsx` imports it, but `contacts.schema.ts` does not define it, so the update form's rules are not modelled.
- Case mapping. Lower- and upper-casing cover ASCII letters only, so they always keep the length. JavaScript maps all of Unicode, where `"ß".toUpperCase()` is `"SS"`. String lengths count characters, not UTF-16 code units.
- Contacts.ContactsService.Create: requires the photo field to be a file. The form data's type declares it one, and the behaviour of `fileToBase64` on anything else is not part of this model.
- Not modelled as behaviour:
  - rendering, routing, toasts and UI widgets;
  - the map picker, the image upload, the create, update, login and register pages;
  - the navigation bar, the not-found page, the layouts and the route guard;
  - the `useContacts` check for a missing provider.
- The momentary `loading = true` inside `loadContacts`. It is set and cleared within one synchronous call, so no reader sees it. The model sets and clears it in the same way.
- The photo-type message names only PNG, JPG and JPEG, although WEBP is accepted too. The model keeps the message as written.
