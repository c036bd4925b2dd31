/** The contact form's validation rules. Every check of a field runs and
    reports its own issue, except that the photo's size and type are only
    checked once the value is a file. Email syntax is decided by the
    validation library; it is the parameter `isEmail` here. */
module ContactSchema {
  import opened Outcomes
  import opened Contacts

  const MaxFileSize: nat := 1 * 1024 * 1024
  const AcceptedImageTypes: seq<string> := ["image/jpeg", "image/jpg", "image/png", "image/webp"]

  const NamaRequiredMessage := "Nama wajib diisi"
  const NamaMaxMessage := "Nama maksimal 100 karakter"
  const TeleponRequiredMessage := "Nomor telepon wajib diisi"
  const TeleponDigitsMessage := "Nomor telepon hanya boleh berisi angka"
  const TeleponMinMessage := "Nomor telepon minimal 10 digit"
  const TeleponMaxMessage := "Nomor telepon maksimal 15 digit"
  const EmailRequiredMessage := "Email wajib diisi"
  const FotoRequiredMessage := "Foto profil wajib diupload"
  const FotoSizeMessage := "Ukuran file maksimal 1MB"
  const FotoTypeMessage := "Format file harus PNG, JPG, atau JPEG"

  datatype Field = Nama | Telepon | Email | FotoProfil | Lokasi

  /** One reported problem: the field it is attached to and its message;
      `None` stands for the validation library's own default message. */
  datatype Issue = Issue(field: Field, message: Option<string>)

  /** The raw form values; `lokasi` is `None` unless it is a pair of numbers. */
  datatype ContactInput = ContactInput(
    nama: string,
    telepon: string,
    email: string,
    fotoProfil: PhotoField,
    lokasi: Option<Location>)

  /** The outcome of parsing: the validated data, or every issue found. */
  datatype Parsed = Accepted(data: ContactFormData) | Rejected(issues: seq<Issue>)

  predicate IsDigit(c: char)
  {
    '0' <= c <= '9'
  }

  // What each field must satisfy.

  predicate NamaValid(s: string)
  {
    1 <= |s| <= 100
  }

  predicate TeleponValid(s: string)
  {
    10 <= |s| <= 15 && forall i :: 0 <= i < |s| ==> IsDigit(s[i])
  }

  predicate EmailValid(s: string, isEmail: string -> bool)
  {
    isEmail(s) && 1 <= |s|
  }

  predicate FotoValid(f: PhotoField)
  {
    f.Upload? && f.file.size <= MaxFileSize && f.file.mimeType in AcceptedImageTypes
  }

  predicate LokasiValid(l: Option<Location>)
  {
    l.Some?
  }

  predicate ContactValid(input: ContactInput, isEmail: string -> bool)
  {
    && NamaValid(input.nama)
    && TeleponValid(input.telepon)
    && EmailValid(input.email, isEmail)
    && FotoValid(input.fotoProfil)
    && LokasiValid(input.lokasi)
  }

  // The checks as the schema chains them, each reporting its own issue.

  /** `regex(/^[0-9]+$/)`: one or more digits and nothing else. */
  predicate OnlyDigits(s: string)
  {
    1 <= |s| && forall i :: 0 <= i < |s| ==> IsDigit(s[i])
  }

  function NamaIssues(s: string): (r: seq<Issue>)
    ensures r == [] <==> NamaValid(s)
    ensures forall i :: 0 <= i < |r| ==> r[i].field == Nama
  {
    (if |s| < 1 then [Issue(Nama, Some(NamaRequiredMessage))] else [])
    + (if |s| > 100 then [Issue(Nama, Some(NamaMaxMessage))] else [])
  }

  function TeleponIssues(s: string): (r: seq<Issue>)
    ensures r == [] <==> TeleponValid(s)
    ensures forall i :: 0 <= i < |r| ==> r[i].field == Telepon
    ensures (exists i :: 0 <= i < |s| && !IsDigit(s[i])) ==> Issue(Telepon, Some(TeleponDigitsMessage)) in r
  {
    (if |s| < 1 then [Issue(Telepon, Some(TeleponRequiredMessage))] else [])
    + (if !OnlyDigits(s) then [Issue(Telepon, Some(TeleponDigitsMessage))] else [])
    + (if |s| < 10 then [Issue(Telepon, Some(TeleponMinMessage))] else [])
    + (if |s| > 15 then [Issue(Telepon, Some(TeleponMaxMessage))] else [])
  }

  function EmailIssues(s: string, isEmail: string -> bool): (r: seq<Issue>)
    ensures r == [] <==> EmailValid(s, isEmail)
    ensures forall i :: 0 <= i < |r| ==> r[i].field == Email
  {
    (if !isEmail(s) then [Issue(Email, None)] else [])
    + (if |s| < 1 then [Issue(Email, Some(EmailRequiredMessage))] else [])
  }

  /** `instanceof(File)` first; the size and type refinements run only on a file. */
  function FotoIssues(f: PhotoField): (r: seq<Issue>)
    ensures r == [] <==> FotoValid(f)
    ensures forall i :: 0 <= i < |r| ==> r[i].field == FotoProfil
    ensures f.NotAFile? ==> r == [Issue(FotoProfil, Some(FotoRequiredMessage))]
  {
    match f
    case NotAFile => [Issue(FotoProfil, Some(FotoRequiredMessage))]
    case Upload(file) =>
      (if file.size > MaxFileSize then [Issue(FotoProfil, Some(FotoSizeMessage))] else [])
      + (if file.mimeType !in AcceptedImageTypes then [Issue(FotoProfil, Some(FotoTypeMessage))] else [])
  }

  function LokasiIssues(l: Option<Location>): (r: seq<Issue>)
    ensures r == [] <==> LokasiValid(l)
    ensures forall i :: 0 <= i < |r| ==> r[i].field == Lokasi
  {
    if l.None? then [Issue(Lokasi, None)] else []
  }

  /** All issues of the form, field by field in the schema's order. */
  function ContactIssues(input: ContactInput, isEmail: string -> bool): seq<Issue>
  {
    NamaIssues(input.nama)
    + TeleponIssues(input.telepon)
    + EmailIssues(input.email, isEmail)
    + FotoIssues(input.fotoProfil)
    + LokasiIssues(input.lokasi)
  }

  /** `contactSchema.safeParse`: the form data when every field is accepted,
      otherwise the issues. */
  function ParseContact(input: ContactInput, isEmail: string -> bool): (r: Parsed)
    ensures r.Accepted? <==> ContactValid(input, isEmail)
    ensures r.Accepted? ==>
      && r.data.nama == input.nama && r.data.telepon == input.telepon
      && r.data.email == input.email && r.data.fotoProfil == input.fotoProfil
      && Some(r.data.lokasi) == input.lokasi
    ensures r.Rejected? ==> r.issues != [] && r.issues == ContactIssues(input, isEmail)
  {
    var issues := ContactIssues(input, isEmail);
    if issues == [] then
      Accepted(ContactFormData(input.nama, input.telepon, input.email, input.fotoProfil, input.lokasi.value))
    else
      Rejected(issues)
  }

  /** Some issue in `issues` is attached to `field`. */
  predicate HasIssueOn(issues: seq<Issue>, field: Field)
  {
    exists i :: 0 <= i < |issues| && issues[i].field == field
  }

  lemma HasIssueOnConcat(a: seq<Issue>, b: seq<Issue>)
    ensures forall fd :: HasIssueOn(a + b, fd) <==> HasIssueOn(a, fd) || HasIssueOn(b, fd)
  {
    forall fd | HasIssueOn(a + b, fd) ensures HasIssueOn(a, fd) || HasIssueOn(b, fd) {
      var i :| 0 <= i < |a + b| && (a + b)[i].field == fd;
      if i >= |a| { assert b[i - |a|] == (a + b)[i]; }
    }
    forall fd | HasIssueOn(a, fd) ensures HasIssueOn(a + b, fd) {
      var i :| 0 <= i < |a| && a[i].field == fd;
      assert (a + b)[i] == a[i];
    }
    forall fd | HasIssueOn(b, fd) ensures HasIssueOn(a + b, fd) {
      var i :| 0 <= i < |b| && b[i].field == fd;
      assert (a + b)[|a| + i] == b[i];
    }
  }

  lemma HasIssueOnSingleField(issues: seq<Issue>, field: Field)
    requires forall i :: 0 <= i < |issues| ==> issues[i].field == field
    ensures forall fd :: HasIssueOn(issues, fd) <==> fd == field && issues != []
  {
    if issues != [] {
      assert issues[0].field == field;
    }
  }

  /** An issue is attached to a field exactly when that field fails its rule. */
  lemma IssueOnFieldIffInvalid(input: ContactInput, isEmail: string -> bool)
    ensures var issues := ContactIssues(input, isEmail);
      && (HasIssueOn(issues, Nama) <==> !NamaValid(input.nama))
      && (HasIssueOn(issues, Telepon) <==> !TeleponValid(input.telepon))
      && (HasIssueOn(issues, Email) <==> !EmailValid(input.email, isEmail))
      && (HasIssueOn(issues, FotoProfil) <==> !FotoValid(input.fotoProfil))
      && (HasIssueOn(issues, Lokasi) <==> !LokasiValid(input.lokasi))
  {
    var n := NamaIssues(input.nama);
    var t := TeleponIssues(input.telepon);
    var e := EmailIssues(input.email, isEmail);
    var f := FotoIssues(input.fotoProfil);
    var l := LokasiIssues(input.lokasi);
    HasIssueOnSingleField(n, Nama);
    HasIssueOnSingleField(t, Telepon);
    HasIssueOnSingleField(e, Email);
    HasIssueOnSingleField(f, FotoProfil);
    HasIssueOnSingleField(l, Lokasi);
    HasIssueOnConcat(n, t);
    HasIssueOnConcat(n + t, e);
    HasIssueOnConcat(n + t + e, f);
    HasIssueOnConcat(n + t + e + f, l);
  }

  /** A phone number with letters, such as "abc123", is refused, so the
      form never reaches the service. */
  lemma LettersInPhoneRejected(input: ContactInput, isEmail: string -> bool)
    requires input.telepon == "abc123"
    ensures Issue(Telepon, Some(TeleponDigitsMessage)) in ContactIssues(input, isEmail)
    ensures ParseContact(input, isEmail).Rejected?
  {
    var t := TeleponIssues(input.telepon);
    assert !IsDigit(input.telepon[0]);
    assert Issue(Telepon, Some(TeleponDigitsMessage)) in t;
    var issues := ContactIssues(input, isEmail);
    var k :| 0 <= k < |t| && t[k] == Issue(Telepon, Some(TeleponDigitsMessage));
    assert issues[|NamaIssues(input.nama)| + k] == t[k];
  }
}
