/** `getUser`: the list request and the unwrapping of its envelope
    `response.data.data[i].data`.  The HTTP response is an input. */
module ListApi {
  import opened Wrappers
  import opened Journals

  /** An element of the `data.data` array: a wrapper object around one
      journal, or `null` */
  datatype Item = NullItem | Wrapper(data: Journal)

  /** What `response.data?.data` turned out to be */
  datatype DataField =
    | Absent              // the body or its `data` is null or undefined
    | NotAnArray          // present but has no `map`
    | Items(items: seq<Item>)

  /** The outcome of the GET: it threw, or it resolved with a body */
  datatype ListResponse = RequestFailed | Received(data: DataField)

  /** `items.map(item => item.data)`; reading `.data` of a `null` item
      throws, which is `None` here. */
  function UnwrapItems(items: seq<Item>): (r: Option<seq<Journal>>)
    ensures r.Some? <==> forall k :: 0 <= k < |items| ==> items[k].Wrapper?
    ensures r.Some? ==> |r.value| == |items|
    ensures r.Some? ==> forall k :: 0 <= k < |items| ==> r.value[k] == items[k].data
    decreases |items|
  {
    if items == [] then Some([])
    else
      match items[0]
      case NullItem => None
      case Wrapper(j) =>
        match UnwrapItems(items[1..])
        case None => None
        case Some(rest) => Some([j] + rest)
  }

  /** `getUser()`: the unwrapped journals, or the empty list when the
      request threw, the envelope is missing or malformed, or any item is
      `null` (the thrown error is caught and `[]` returned). */
  function GetUser(response: ListResponse): (users: seq<Journal>)
    ensures response.RequestFailed? ==> users == []
    ensures response.Received? && !response.data.Items? ==> users == []
    ensures response.Received? && response.data.Items? ==>
      var items := response.data.items;
      if forall k :: 0 <= k < |items| ==> items[k].Wrapper? then
        |users| == |items| && forall k :: 0 <= k < |items| ==> users[k] == items[k].data
      else
        users == []
  {
    match response
    case RequestFailed => []
    case Received(Items(items)) => UnwrapItems(items).GetOr([])
    case Received(_) => []
  }

  /** The envelope a well-behaved server sends for `journals` */
  function Envelope(journals: seq<Journal>): ListResponse {
    Received(Items(seq(|journals|, k requires 0 <= k < |journals| => Wrapper(journals[k]))))
  }

  /** Unwrapping the server's envelope gives back exactly its journals. */
  lemma UnwrapEnvelope(journals: seq<Journal>)
    ensures GetUser(Envelope(journals)) == journals
  {
  }
}
