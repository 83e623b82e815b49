/** Properties of the page that relate several handlers or whole runs. */
module PageProperties {
  import opened Journals
  import opened ListApi
  import opened Page

  /** Typing back the value an input already holds changes nothing. */
  lemma ChangeToSameValue(s: PageState, name: Field)
    ensures HandleChange(s, name, s.formData.Get(name)) == s
  {
  }

  /** A later change to the same input overrides an earlier one. */
  lemma ChangeOverrides(s: PageState, name: Field, first: string, second: string)
    ensures HandleChange(HandleChange(s, name, first), name, second) == HandleChange(s, name, second)
  {
  }

  /** Starting an edit and cancelling it is the same as cancelling without
      it: nothing of the edited record survives. */
  lemma EditThenCancel(s: PageState, user: Journal, now: string)
    ensures Cancel(HandleEdit(s, user), now) == Cancel(s, now)
  {
  }

  /** The journal the server lists after storing `body` under `id` */
  function Stored(id: Id, body: FormData): Journal {
    Journal(id, body.judul, body.pembuat, body.isi, body.tema, body.tanggalBuat)
  }

  /** Editing a record that was saved from `form` loads `form` back exactly
      when its date holds no space (a date input never yields one). */
  lemma EditRestoresSavedForm(s: PageState, id: Id, form: FormData)
    ensures HandleEdit(s, Stored(id, FormatPayload(form))).formData == form
            <==> ' ' !in form.tanggalBuat
  {
  }

  /** After an edit, submitting updates the edited record when its id is
      truthy; a record whose id is `0` or `""` is created anew instead. */
  lemma SubmitAfterEdit(s: PageState, user: Journal, now: string, accepted: bool, response: ListResponse)
    ensures var form := HandleEdit(s, user).formData;
            Submit(HandleEdit(s, user), now, accepted, response).sent[0]
            == if Truthy(user.id) then Put(user.id, FormatPayload(form)) else Post(FormatPayload(form))
  {
  }

  /** The banner after a submit is green exactly when the request
      succeeded, and red otherwise; it is never hidden. */
  lemma SubmitBanner(s: PageState, now: string, accepted: bool, response: ListResponse)
    ensures BannerOf(Submit(s, now, accepted, response).state.message)
            == if accepted then SuccessBanner else ErrorBanner
  {
  }

  /** A confirmed delete shows a green banner exactly when it succeeded; a
      declined one leaves the banner as it was. */
  lemma DeleteBanner(s: PageState, id: Id, confirmed: bool, accepted: bool, response: ListResponse)
    ensures confirmed ==> BannerOf(HandleDelete(s, id, confirmed, accepted, response).state.message)
                          == if accepted then SuccessBanner else ErrorBanner
    ensures !confirmed ==> BannerOf(HandleDelete(s, id, confirmed, accepted, response).state.message)
                           == BannerOf(s.message)
  {
  }

  /** Mounting against a server that lists `journals` shows exactly them. */
  lemma MountShowsServerList(now: string, journals: seq<Journal>)
    ensures Mount(now, Envelope(journals)).state.users == journals
  {
  }

  /** No handler leaves a request marked in flight or an error shown: the
      page settles after mounting and stays settled through any run. */
  lemma {:induction false} RunStaysSettled(s: PageState, events: seq<Event>)
    requires Settled(s)
    requires ValidRun(s, events)
    ensures Settled(Run(s, events))
    decreases |events|
  {
    if events != [] {
      RunStaysSettled(Apply(s, events[0]).state, events[1..]);
    }
  }

  /** No event of `events` refetches the list */
  predicate NoRefetch(events: seq<Event>) {
    forall j :: 0 <= j < |events| ==> !Refetches(events[j])
  }

  /** `events[k]` refetches the list and no later event does */
  predicate IsLastRefetch(events: seq<Event>, k: int) {
    && 0 <= k < |events|
    && Refetches(events[k])
    && forall j :: k < j < |events| ==> !Refetches(events[j])
  }

  /** A run without a refetch leaves the list as it was: the page never
      edits it locally. */
  lemma {:induction false} RunWithoutRefetch(s: PageState, events: seq<Event>)
    requires ValidRun(s, events)
    requires NoRefetch(events)
    ensures Run(s, events).users == s.users
    decreases |events|
  {
    if events != [] {
      var rest := events[1..];
      assert !Refetches(events[0]);
      assert NoRefetch(rest) by {
        forall j | 0 <= j < |rest| ensures !Refetches(rest[j]) {
          assert rest[j] == events[j + 1];
        }
      }
      RunWithoutRefetch(Apply(s, events[0]).state, rest);
    }
  }

  /** After a run the list is exactly what the server returned to the last
      refetch of the run. */
  lemma {:induction false} RunShowsLastRefetch(s: PageState, events: seq<Event>, k: int)
    requires ValidRun(s, events)
    requires IsLastRefetch(events, k)
    ensures Run(s, events).users == GetUser(events[k].list)
    decreases |events|
  {
    var rest := events[1..];
    var next := Apply(s, events[0]).state;
    if k == 0 {
      assert NoRefetch(rest) by {
        forall j | 0 <= j < |rest| ensures !Refetches(rest[j]) {
          assert rest[j] == events[j + 1];
        }
      }
      RunWithoutRefetch(next, rest);
    } else {
      assert IsLastRefetch(rest, k - 1) by {
        assert rest[k - 1] == events[k];
        forall j | k - 1 < j < |rest| ensures !Refetches(rest[j]) {
          assert rest[j] == events[j + 1];
        }
      }
      RunShowsLastRefetch(next, rest, k - 1);
    }
  }
}
