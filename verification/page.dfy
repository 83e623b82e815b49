/** The journal page's state and its handlers, each one atomic transition.
    The clock string, the confirm answer, whether each request resolved
    and the list response are inputs; a transition also reports the
    requests it sends. */
module Page {
  import opened Wrappers
  import opened Dates
  import opened Journals
  import opened ListApi
  import Messages

  /** The component's `useState` hooks */
  datatype PageState = PageState(
    users: seq<Journal>,
    message: string,
    editingId: Option<Id>,
    formData: FormData,
    isLoading: bool,
    error: Option<string>)

  /** The state after a handler has finished, and the requests it sent */
  datatype Step = Step(state: PageState, sent: seq<Request>)

  /** `editingId` is truthy: the page shows "Edit Journal", an Update
      button and Cancel, and a submit goes to `handleUpdate` */
  predicate Editing(s: PageState) {
    s.editingId.Some? && Truthy(s.editingId.value)
  }

  /** No request in flight and no error shown */
  predicate Settled(s: PageState) {
    !s.isLoading && s.error.None?
  }

  /** The first render: no list, no message, nothing edited, blank form */
  function Initial(now: string): PageState {
    PageState([], "", None, DefaultForm(now), false, None)
  }

  /** `fetchData()`: GET the list and replace the snapshot with it.
      `getUser` catches every error itself, so the catch clause of
      `fetchData` never runs and `error` is left null. */
  function FetchData(s: PageState, response: ListResponse): (r: Step)
    ensures r.sent == [ListJournals]
    ensures r.state.users == GetUser(response)
    ensures Settled(r.state)
    ensures r.state.message == s.message && r.state.editingId == s.editingId
    ensures r.state.formData == s.formData
  {
    Step(s.(isLoading := false, error := None, users := GetUser(response)), [ListJournals])
  }

  /** The mount effect: the first render followed by `fetchData()` */
  function Mount(now: string, response: ListResponse): (r: Step)
    ensures r.sent == [ListJournals]
    ensures r.state.users == GetUser(response)
    ensures Settled(r.state) && r.state.editingId.None? && r.state.message == ""
    ensures r.state.formData == DefaultForm(now)
  {
    FetchData(Initial(now), response)
  }

  /** `handleChange`: the input named `name` now holds `value` */
  function HandleChange(s: PageState, name: Field, value: string): (r: PageState)
    ensures forall f :: r.formData.Get(f) == (if f == name then value else s.formData.Get(f))
    ensures r.(formData := s.formData) == s
  {
    s.(formData := s.formData.Set(name, value))
  }

  /** `handleEdit(user)`: mark `user` as edited and load it into the form,
      its date cut back to the date-input form */
  function HandleEdit(s: PageState, user: Journal): (r: PageState)
    ensures r.editingId == Some(user.id)
    ensures Editing(r) <==> Truthy(user.id)
    ensures r.formData.judul == user.judul && r.formData.pembuat == user.pembuat
    ensures r.formData.isi == user.isi && r.formData.tema == user.tema
    ensures r.formData.tanggalBuat == FormatDateForInput(user.tanggalBuat)
    ensures r.formData.tanggalBuat <= user.tanggalBuat && ' ' !in r.formData.tanggalBuat
    ensures ' ' !in user.tanggalBuat ==> r.formData.tanggalBuat == user.tanggalBuat
    ensures r.(editingId := s.editingId, formData := s.formData) == s
  {
    s.(editingId := Some(user.id),
       formData := FormData(user.judul, user.pembuat, user.isi, user.tema,
                            FormatDateForInput(user.tanggalBuat)))
  }

  /** The Cancel button: leave edit mode and blank the form */
  function Cancel(s: PageState, now: string): (r: PageState)
    ensures r.editingId.None? && !Editing(r)
    ensures r.formData == DefaultForm(now)
    ensures r.(editingId := s.editingId, formData := s.formData) == s
  {
    s.(editingId := None, formData := DefaultForm(now))
  }

  /** `handleSubmit`: create a journal from the form.  On success the form
      is blanked and the list refetched; on failure only the message
      changes, so the input stays for correction. */
  function HandleSubmit(s: PageState, now: string, accepted: bool, response: ListResponse): (r: Step)
    ensures |r.sent| >= 1 && r.sent[0] == Post(FormatPayload(s.formData))
    ensures r.state.message == PostPendaftaran(s.formData, accepted).result.message
    ensures Messages.MarksSuccess(r.state.message) <==> accepted
    ensures accepted ==> r.sent == [r.sent[0], ListJournals]
    ensures accepted ==> r.state.formData == DefaultForm(now) && r.state.editingId == s.editingId
    ensures accepted ==> r.state.users == GetUser(response) && Settled(r.state)
    ensures !accepted ==> r.sent == [r.sent[0]] && r.state == s.(message := r.state.message)
  {
    var call := PostPendaftaran(s.formData, accepted);
    Messages.SuccessMessagesMarkSuccess();
    Messages.FailureMessagesMarkFailure();
    var reported := s.(message := call.result.message);
    if call.result.success then
      var refetch := FetchData(reported.(formData := DefaultForm(now)), response);
      Step(refetch.state, [call.request] + refetch.sent)
    else
      Step(reported, [call.request])
  }

  /** `handleUpdate(id)`: replace record `id` with the form.  On success the
      page leaves edit mode, the form is blanked and the list refetched;
      on failure only the message changes. */
  function HandleUpdate(s: PageState, id: Id, now: string, accepted: bool, response: ListResponse): (r: Step)
    ensures |r.sent| >= 1 && r.sent[0] == Put(id, FormatPayload(s.formData))
    ensures r.state.message == UpdateUser(id, s.formData, accepted).result.message
    ensures Messages.MarksSuccess(r.state.message) <==> accepted
    ensures accepted ==> r.sent == [r.sent[0], ListJournals]
    ensures accepted ==> r.state.formData == DefaultForm(now) && r.state.editingId.None?
    ensures accepted ==> r.state.users == GetUser(response) && Settled(r.state)
    ensures !accepted ==> r.sent == [r.sent[0]] && r.state == s.(message := r.state.message)
  {
    var call := UpdateUser(id, s.formData, accepted);
    Messages.SuccessMessagesMarkSuccess();
    Messages.FailureMessagesMarkFailure();
    var reported := s.(message := call.result.message);
    if call.result.success then
      var refetch := FetchData(reported.(editingId := None, formData := DefaultForm(now)), response);
      Step(refetch.state, [call.request] + refetch.sent)
    else
      Step(reported, [call.request])
  }

  /** `handleDelete(id)`: nothing at all unless the user confirms; then
      DELETE, report the result, and refetch only on success.  The form
      and the edit marker are never touched. */
  function HandleDelete(s: PageState, id: Id, confirmed: bool, accepted: bool, response: ListResponse): (r: Step)
    ensures !confirmed ==> r == Step(s, [])
    ensures confirmed ==> |r.sent| >= 1 && r.sent[0] == Delete(id)
    ensures confirmed ==> r.state.message == DeleteUser(id, accepted).result.message
    ensures confirmed ==> (Messages.MarksSuccess(r.state.message) <==> accepted)
    ensures confirmed && accepted ==> r.sent == [Delete(id), ListJournals]
    ensures confirmed && accepted ==> r.state.users == GetUser(response) && Settled(r.state)
    ensures confirmed && !accepted ==> r.sent == [Delete(id)] && r.state == s.(message := r.state.message)
    ensures r.state.formData == s.formData && r.state.editingId == s.editingId
  {
    if !confirmed then Step(s, [])
    else
      var call := DeleteUser(id, accepted);
      Messages.SuccessMessagesMarkSuccess();
      Messages.FailureMessagesMarkFailure();
      var reported := s.(message := call.result.message);
      if call.result.success then
        var refetch := FetchData(reported, response);
        Step(refetch.state, [call.request] + refetch.sent)
      else
        Step(reported, [call.request])
  }

  /** The form's `onSubmit`: update the edited record when `editingId` is
      truthy, create otherwise.  After a success the page is in create mode
      with a blank form. */
  function Submit(s: PageState, now: string, accepted: bool, response: ListResponse): (r: Step)
    ensures |r.sent| >= 1
    ensures r.sent[0] == (if Editing(s) then Put(s.editingId.value, FormatPayload(s.formData))
                          else Post(FormatPayload(s.formData)))
    ensures r.state.message == (if Editing(s) then UpdateUser(s.editingId.value, s.formData, accepted).result.message
                                else PostPendaftaran(s.formData, accepted).result.message)
    ensures Messages.MarksSuccess(r.state.message) <==> accepted
    ensures accepted ==> r.sent[1..] == [ListJournals] && r.state.users == GetUser(response)
    ensures accepted ==> r.state.formData == DefaultForm(now) && !Editing(r.state) && Settled(r.state)
    ensures accepted ==> r.state.editingId == (if Editing(s) then None else s.editingId)
    ensures !accepted ==> |r.sent| == 1 && r.state == s.(message := r.state.message)
  {
    if Editing(s) then HandleUpdate(s, s.editingId.value, now, accepted, response)
    else HandleSubmit(s, now, accepted, response)
  }

  /** The status banner: none for an empty message, green when it includes
      "berhasil", red otherwise */
  datatype Banner = NoBanner | SuccessBanner | ErrorBanner

  function BannerOf(message: string): (b: Banner)
    ensures b.NoBanner? <==> message == ""
    ensures b.SuccessBanner? <==> message != "" && Messages.MarksSuccess(message)
  {
    if message == "" then NoBanner
    else if Messages.MarksSuccess(message) then SuccessBanner
    else ErrorBanner
  }

  /** A user action on the rendered page.  Rows index the displayed list. */
  datatype Event =
    | Change(name: Field, value: string)
    | EditRow(row: nat)
    | CancelClick(now: string)
    | SubmitForm(now: string, accepted: bool, list: ListResponse)
    | DeleteRow(row: nat, confirmed: bool, accepted: bool, list: ListResponse)

  /** The event's handler refetches the list: a successful submit, or a
      confirmed delete that succeeded */
  predicate Refetches(e: Event) {
    (e.SubmitForm? && e.accepted) || (e.DeleteRow? && e.confirmed && e.accepted)
  }

  /** The control the event comes from is on screen: a table row that
      exists, or the Cancel button, which is shown only while editing */
  predicate Enabled(s: PageState, e: Event) {
    match e
    case EditRow(row) => row < |s.users|
    case DeleteRow(row, _, _, _) => row < |s.users|
    case CancelClick(_) => Editing(s)
    case _ => true
  }

  /** The handler the event triggers.  The list shown changes only through
      a refetch, and then it is exactly what the server returned. */
  function Apply(s: PageState, e: Event): (r: Step)
    requires Enabled(s, e)
    ensures Settled(s) ==> Settled(r.state)
    ensures ListJournals in r.sent <==> Refetches(e)
    ensures Refetches(e) ==> r.state.users == GetUser(e.list)
    ensures !Refetches(e) ==> r.state.users == s.users
    ensures e.Change? ==> r.sent == [] && r.state == HandleChange(s, e.name, e.value)
    ensures e.EditRow? ==> r.sent == [] && r.state == HandleEdit(s, s.users[e.row])
    ensures e.CancelClick? ==> r.sent == [] && r.state == Cancel(s, e.now)
    ensures e.SubmitForm? ==> r == Submit(s, e.now, e.accepted, e.list)
    ensures e.DeleteRow? ==> r == HandleDelete(s, s.users[e.row].id, e.confirmed, e.accepted, e.list)
  {
    match e
    case Change(name, value) => Step(HandleChange(s, name, value), [])
    case EditRow(row) => Step(HandleEdit(s, s.users[row]), [])
    case CancelClick(now) => Step(Cancel(s, now), [])
    case SubmitForm(now, accepted, list) => Submit(s, now, accepted, list)
    case DeleteRow(row, confirmed, accepted, list) =>
      HandleDelete(s, s.users[row].id, confirmed, accepted, list)
  }

  /** Every event of `events` is enabled when it happens */
  predicate ValidRun(s: PageState, events: seq<Event>)
    decreases |events|
  {
    events == [] || (Enabled(s, events[0]) && ValidRun(Apply(s, events[0]).state, events[1..]))
  }

  /** The state after the events, one after another */
  function Run(s: PageState, events: seq<Event>): PageState
    requires ValidRun(s, events)
    decreases |events|
  {
    if events == [] then s else Run(Apply(s, events[0]).state, events[1..])
  }
}
