/** Journal records, the page's form, and the three mutation calls
    (`postPendaftaran`, `updateUser`, `deleteUser`) with the network
    outcome taken as a parameter. */
module Journals {
  import opened Dates
  import Messages

  /** A server-assigned id, a JSON number or string */
  datatype Id = NumId(n: int) | StrId(s: string)

  /** JavaScript truthiness of an id: `0` and `""` are falsy */
  predicate Truthy(id: Id) {
    match id
    case NumId(n) => n != 0
    case StrId(s) => s != ""
  }

  /** One journal entry as the list endpoint returns it */
  datatype Journal = Journal(
    id: Id,
    judul: string,
    pembuat: string,
    isi: string,
    tema: string,
    tanggalBuat: string)

  /** The `name` of each of the form's five inputs */
  datatype Field = Judul | Pembuat | Isi | Tema | TanggalBuat

  /** The form's values, also the body of a create or update request */
  datatype FormData = FormData(
    judul: string,
    pembuat: string,
    isi: string,
    tema: string,
    tanggalBuat: string)
  {
    /** The value of the input named `f` */
    function Get(f: Field): string {
      match f
      case Judul => judul
      case Pembuat => pembuat
      case Isi => isi
      case Tema => tema
      case TanggalBuat => tanggalBuat
    }

    /** `{...form, [f]: v}` */
    function Set(f: Field, v: string): (r: FormData)
      ensures r.Get(f) == v
      ensures forall g :: g != f ==> r.Get(g) == Get(g)
    {
      match f
      case Judul => this.(judul := v)
      case Pembuat => this.(pembuat := v)
      case Isi => this.(isi := v)
      case Tema => this.(tema := v)
      case TanggalBuat => this.(tanggalBuat := v)
    }
  }

  /** The blank form: empty texts and "today", where `now` is the clock's
      ISO string (which holds no space, so it is kept whole) */
  function DefaultForm(now: string): FormData {
    FormData("", "", "", "", FormatDateForInput(now))
  }

  /** The request body of a create or update: the form with its date
      stamped at midnight. */
  function FormatPayload(form: FormData): (body: FormData)
    ensures body.(tanggalBuat := form.tanggalBuat) == form
    ensures body.tanggalBuat == form.tanggalBuat + " 00:00:00"
    ensures FormatDateForInput(body.tanggalBuat) == form.tanggalBuat <==> ' ' !in form.tanggalBuat
  {
    FormatRecoversStampedDate(form.tanggalBuat);
    form.(tanggalBuat := StampMidnight(form.tanggalBuat))
  }

  /** The HTTP requests the page issues */
  datatype Request =
    | ListJournals
    | Post(body: FormData)
    | Put(id: Id, body: FormData)
    | Delete(id: Id)

  /** `{success, message}` as the mutation calls return it */
  datatype MutationResult = MutationResult(success: bool, message: string)

  /** One mutation call: the request it sends and the result it reports */
  datatype Call = Call(request: Request, result: MutationResult)

  /** The result of a mutation whose request resolved (`accepted`) or
      threw, with the two fixed messages */
  function Report(accepted: bool, done: string, failed: string): MutationResult {
    MutationResult(accepted, if accepted then done else failed)
  }

  /** `postPendaftaran(form)`: POST the stamped form */
  function PostPendaftaran(form: FormData, accepted: bool): (c: Call)
    ensures c.request.Post? && c.request.body == FormatPayload(form)
    ensures c.result.success == accepted
    ensures c.result.message in {Messages.Created, Messages.CreateFailed}
  {
    Call(Post(FormatPayload(form)), Report(accepted, Messages.Created, Messages.CreateFailed))
  }

  /** `updateUser(id, form)`: PUT the stamped form to the record's URL */
  function UpdateUser(id: Id, form: FormData, accepted: bool): (c: Call)
    ensures c.request == Put(id, FormatPayload(form))
    ensures c.result.success == accepted
    ensures c.result.message in {Messages.Updated, Messages.UpdateFailed}
  {
    Call(Put(id, FormatPayload(form)), Report(accepted, Messages.Updated, Messages.UpdateFailed))
  }

  /** `deleteUser(id)`: DELETE the record's URL */
  function DeleteUser(id: Id, accepted: bool): (c: Call)
    ensures c.request == Delete(id)
    ensures c.result.success == accepted
    ensures c.result.message in {Messages.Deleted, Messages.DeleteFailed}
  {
    Call(Delete(id), Report(accepted, Messages.Deleted, Messages.DeleteFailed))
  }

  /** Every result a mutation call can report is coloured by the banner
      exactly as its success flag says. */
  lemma ResultsClassifiedBySuccess(form: FormData, id: Id, accepted: bool)
    ensures Messages.MarksSuccess(PostPendaftaran(form, accepted).result.message) <==> accepted
    ensures Messages.MarksSuccess(UpdateUser(id, form, accepted).result.message) <==> accepted
    ensures Messages.MarksSuccess(DeleteUser(id, accepted).result.message) <==> accepted
  {
    Messages.SuccessMessagesMarkSuccess();
    Messages.FailureMessagesMarkFailure();
  }
}
