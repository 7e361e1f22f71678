/** The two calls the bot makes to Airtable (bot/airtable_client.py):
    the paginated listing of order names and the record creation with its
    bounded retry. Every HTTP exchange is an input value: the listing reads a
    sequence of responses, one per request, and the creation reads a sequence
    of attempt outcomes, one per attempt. */
module Airtable {
  import opened Wrappers
  import opened Text

  // ---------------------------------------------------------------------------
  // Listing order names (get_order_names)
  // ---------------------------------------------------------------------------

  /** A field of a listed record, as JSON decoding leaves it. */
  datatype Json = Missing | Str(s: string) | NotStr

  /** The "Name" and "Статус" fields of one record of the orders table. */
  datatype ListedRecord = ListedRecord(name: Json, status: Json)

  /** One decoded page: its records (an absent "records" key is the empty
      list) and its "offset" value, if any. */
  datatype Page = Page(records: seq<ListedRecord>, offset: Option<string>)

  /** What one list request produced: a page, or an exception (a transport
      error, an HTTP status error raised by `raise_for_status`, a body that
      is not JSON) with its message. */
  datatype Response = Listed(page: Page) | RequestFailed(error: string)

  const ExcludedStatuses: set<string> := {"Расчет", "Отменен", "Отложен"}

  const NotConfiguredMessage: string := "AIRTABLE_ORDERS_TABLE_ID не настроен"

  predicate Excluded(r: ListedRecord)
  {
    r.status.Str? && Strip(r.status.s) in ExcludedStatuses
  }

  /** A record gives a name when its status is not excluded and its "Name"
      is a non-empty string. */
  predicate Contributes(r: ListedRecord)
  {
    !Excluded(r) && r.name.Str? && r.name.s != ""
  }

  /** A page asks for another one when its offset is a non-empty string. */
  predicate HasMore(p: Page)
  {
    p.offset.Some? && p.offset.value != ""
  }

  /** The loop stops at this response: it raised, or its page has no offset. */
  predicate Last(resp: Response)
  {
    resp.RequestFailed? || !HasMore(resp.page)
  }

  /** The server eventually answers a request with a last response. */
  predicate Ends(responses: seq<Response>)
    decreases |responses|
  {
    |responses| > 0 && (Last(responses[0]) || Ends(responses[1..]))
  }

  /** The names one page contributes, record by record. */
  function NamesOf(records: seq<ListedRecord>): seq<string>
  {
    if records == [] then [] else NameOf(records[0]) + NamesOf(records[1..])
  }

  /** What one record adds to the list: its stripped name, or nothing. */
  function NameOf(record: ListedRecord): seq<string>
  {
    if Contributes(record) then [Strip(record.name.s)] else []
  }

  /** What the listing loop yields on a sequence of responses: the names of
      every page it reads, page after page, or the first error it meets. */
  function Listing(responses: seq<Response>): Result<seq<string>>
    requires Ends(responses)
    decreases |responses|
  {
    match responses[0]
    case RequestFailed(e) => Err(e)
    case Listed(p) =>
      if !HasMore(p) then Ok(NamesOf(p.records))
      else
        match Listing(responses[1..])
        case Err(e) => Err(e)
        case Ok(rest) => Ok(NamesOf(p.records) + rest)
  }

  /** `AirtableClient.get_order_names`. `ordersTable` is the configured
      AIRTABLE_ORDERS_TABLE_ID; `responses[k]` answers the k-th request.
      Besides the result it returns the "offset" parameter each request was
      sent with (`None` when the request carried none). */
  method GetOrderNames(ordersTable: Option<string>, responses: seq<Response>)
    returns (r: Result<seq<string>>, requests: seq<Option<string>>)
    requires Ends(responses)
    ensures ordersTable.None? || ordersTable.value == "" ==>
              r == Err(NotConfiguredMessage) && requests == []
    ensures ordersTable.Some? && ordersTable.value != "" ==>
              r == Listing(responses)
              && 0 < |requests| <= |responses|
              && requests[0] == None
              && (forall k :: 0 < k < |requests| ==> RequestFollows(responses, requests, k))
              && Last(responses[|requests| - 1])
  {
    if ordersTable.None? || ordersTable.value == "" {
      return Err(NotConfiguredMessage), [];
    }
    var names: seq<string> := [];
    var offset: Option<string> := None;
    var i := 0;
    requests := [];
    assert responses[i..] == responses;
    PrependNothing(Listing(responses));
    while true
      invariant 0 <= i < |responses| && |requests| == i
      invariant Ends(responses[i..])
      invariant i == 0 ==> offset == None
      invariant i > 0 ==> responses[i - 1].Listed? && HasMore(responses[i - 1].page)
                          && offset == responses[i - 1].page.offset
      invariant forall k :: 0 < k < i ==> RequestFollows(responses, requests, k)
      invariant i > 0 ==> requests[0] == None
      invariant Listing(responses) == Prepend(names, Listing(responses[i..]))
      decreases |responses| - i
    {
      // The request carries the offset only when it is truthy.
      var param := if offset.Some? && offset.value != "" then offset else None;
      ghost var before := requests;
      requests := requests + [param];
      assert forall k :: 0 < k < i ==> RequestFollows(responses, requests, k) by {
        forall k | 0 < k < i ensures RequestFollows(responses, requests, k) {
          assert RequestFollows(responses, before, k);
          assert requests[k] == before[k];
        }
      }
      assert i > 0 ==> RequestFollows(responses, requests, i);
      var resp := responses[i];
      if resp.RequestFailed? {
        r := Err(resp.error);
        return;
      }
      var page := resp.page;
      ListingUnfold(responses[i..]);
      if HasMore(page) {
        PrependPrepend(names, NamesOf(page.records), Listing(responses[i..][1..]));
      }
      names := names + NamesOf(page.records);
      offset := page.offset;
      if !HasMore(page) {
        r := Ok(names);
        return;
      }
      assert responses[i..][1..] == responses[i + 1..];
      i := i + 1;
    }
  }

  /** The k-th request carries the offset of the page before it, and is only
      made because that page had one. */
  ghost predicate RequestFollows(responses: seq<Response>, requests: seq<Option<string>>, k: nat)
    requires 0 < k < |requests| && k <= |responses|
  {
    responses[k - 1].Listed? && HasMore(responses[k - 1].page)
    && requests[k] == responses[k - 1].page.offset
  }

  lemma ListingUnfold(rs: seq<Response>)
    requires Ends(rs) && rs[0].Listed?
    ensures !HasMore(rs[0].page) ==> Listing(rs) == Ok(NamesOf(rs[0].page.records))
    ensures HasMore(rs[0].page) ==>
              Ends(rs[1..]) && Listing(rs) == Prepend(NamesOf(rs[0].page.records), Listing(rs[1..]))
  {
  }

  lemma PrependNothing(r: Result<seq<string>>)
    ensures Prepend([], r) == r
  {
    if r.Ok? { assert [] + r.value == r.value; }
  }

  lemma PrependPrepend(a: seq<string>, b: seq<string>, r: Result<seq<string>>)
    ensures Prepend(a, Prepend(b, r)) == Prepend(a + b, r)
  {
    if r.Ok? { assert a + (b + r.value) == (a + b) + r.value; }
  }

  /** `names` followed by a listing's names, or the listing's error. */
  function Prepend(names: seq<string>, r: Result<seq<string>>): Result<seq<string>>
  {
    match r
    case Err(e) => Err(e)
    case Ok(rest) => Ok(names + rest)
  }

  lemma {:induction false} NamesOfAppend(a: seq<ListedRecord>, b: seq<ListedRecord>)
    ensures NamesOf(a + b) == NamesOf(a) + NamesOf(b)
    decreases |a|
  {
    if a == [] {
      assert a + b == b;
    } else {
      assert (a + b)[0] == a[0];
      assert (a + b)[1..] == a[1..] + b;
      assert NamesOf(a + b) == NameOf(a[0]) + NamesOf(a[1..] + b);
      NamesOfAppend(a[1..], b);
      assert NameOf(a[0]) + (NamesOf(a[1..]) + NamesOf(b)) == (NameOf(a[0]) + NamesOf(a[1..])) + NamesOf(b);
    }
  }

  /** Every listed name is the stripped "Name" of a record that contributes:
      no name comes from a record whose status is excluded, and none from a
      record whose "Name" is missing, empty or not a string. */
  lemma {:induction false} NamesComeFromContributingRecords(records: seq<ListedRecord>, n: string)
    requires n in NamesOf(records)
    ensures exists j :: 0 <= j < |records| && Contributes(records[j]) && n == Strip(records[j].name.s)
    decreases |records|
  {
    assert NamesOf(records) == NameOf(records[0]) + NamesOf(records[1..]);
    if n in NameOf(records[0]) {
      assert Contributes(records[0]) && n == Strip(records[0].name.s);
    } else {
      NamesComeFromContributingRecords(records[1..], n);
      var j :| 0 <= j < |records[1..]| && Contributes(records[1..][j]) && n == Strip(records[1..][j].name.s);
      assert records[j + 1] == records[1..][j];
    }
  }

  /** Conversely, every contributing record gives its stripped name. */
  lemma {:induction false} ContributingRecordsAreListed(records: seq<ListedRecord>, j: nat)
    requires j < |records| && Contributes(records[j])
    ensures Strip(records[j].name.s) in NamesOf(records)
    decreases |records|
  {
    var name := Strip(records[j].name.s);
    assert NamesOf(records) == NameOf(records[0]) + NamesOf(records[1..]);
    if j > 0 {
      assert records[1..][j - 1] == records[j];
      ContributingRecordsAreListed(records[1..], j - 1);
      assert name in NamesOf(records[1..]);
    } else {
      assert NameOf(records[0]) == [name];
    }
  }

  /** The records of the pages the loop reads, page order then record order. */
  function RecordsRead(responses: seq<Response>): seq<ListedRecord>
    requires Ends(responses)
    decreases |responses|
  {
    match responses[0]
    case RequestFailed(_) => []
    case Listed(p) => if !HasMore(p) then p.records else p.records + RecordsRead(responses[1..])
  }

  /** A successful listing is exactly the names of the records read, in the
      order they appear within a page and then page by page; it fails exactly
      when one of the responses it reads raised. */
  lemma {:induction false} ListingIsNamesInOrder(responses: seq<Response>)
    requires Ends(responses)
    ensures Listing(responses).Ok? ==> Listing(responses).value == NamesOf(RecordsRead(responses))
    ensures Listing(responses).Err? <==> FailsBeforeEnd(responses)
    decreases |responses|
  {
    match responses[0]
    case RequestFailed(_) =>
    case Listed(p) =>
      if HasMore(p) {
        ListingIsNamesInOrder(responses[1..]);
        NamesOfAppend(p.records, RecordsRead(responses[1..]));
      }
  }

  /** Some response read before the loop stops is an exception. */
  predicate FailsBeforeEnd(responses: seq<Response>)
    requires Ends(responses)
    decreases |responses|
  {
    responses[0].RequestFailed? || (!Last(responses[0]) && FailsBeforeEnd(responses[1..]))
  }

  // ---------------------------------------------------------------------------
  // Creating a record (create_record)
  // ---------------------------------------------------------------------------

  /** The JSON body of an HTTP status error, as far as the message extraction
      looks at it. */
  datatype ErrorBody =
    | NotJson                                  // `response.json()` raises
    | NotAnObject                              // JSON, but `.get` is not defined on it
    | NoErrorKey                               // an object without an "error" key
    | ErrorNotAnObject                         // "error" holds a string, null, a list, ...
    | ErrorObject(message: Option<string>)     // "error" holds an object, with or without "message"

  /** What one POST attempt produced. `detail` is `str(e)` of the exception. */
  datatype Attempt =
    | Created(response: string)                                 // 2xx and its decoded body
    | NetworkError(detail: string)                              // httpx.NetworkError
    | Timeout(detail: string)                                   // httpx.TimeoutException
    | StatusError(body: ErrorBody, text: string, detail: string) // httpx.HTTPStatusError
    | Unexpected(detail: string)                                // any other exception

  datatype Payload<F> = Payload(records: seq<NewRecord<F>>)
  datatype NewRecord<F> = NewRecord(fields: F)

  const MaxAttempts: nat := 3

  predicate Retryable(a: Attempt)
  {
    a.NetworkError? || a.Timeout?
  }

  /** The message of an HTTP status error: the body's `error.message` when the
      body is JSON of that shape, `str(e)` when the shape lacks the message,
      and the raw text (or `str(e)` when that is empty) when reading the body
      raised. */
  function StatusMessage(body: ErrorBody, text: string, detail: string): (m: string)
    ensures body.ErrorObject? && body.message.Some? ==> m == body.message.value
    ensures body.NotJson? || body.NotAnObject? || body.ErrorNotAnObject? ==>
              m == (if text != "" then text else detail)
    ensures body.NoErrorKey? || (body.ErrorObject? && body.message.None?) ==> m == detail
  {
    match body
    case ErrorObject(Some(message)) => message
    case ErrorObject(None) => detail
    case NoErrorKey => detail
    case _ => if text != "" then text else detail
  }

  function GaveUpMessage(detail: string): string
  {
    "Airtable не отвечает после 3 попыток: " + detail
  }

  function RejectedMessage(message: string): string
  {
    "Airtable API Error: " + message
  }

  function UnexpectedMessage(detail: string): string
  {
    "Неожиданная ошибка: " + detail
  }

  /** The error `create_record` raises when `a` ends the loop. */
  function Failure(a: Attempt): (m: string)
    requires !a.Created?
  {
    match a
    case NetworkError(d) => GaveUpMessage(d)
    case Timeout(d) => GaveUpMessage(d)
    case StatusError(b, t, d) => RejectedMessage(StatusMessage(b, t, d))
    case Unexpected(d) => UnexpectedMessage(d)
  }

  /** The attempt that ends `create_record`'s loop: the first that is not a
      network error or timeout, or the third. */
  function Decisive(outcomes: seq<Attempt>): (k: nat)
    requires |outcomes| >= MaxAttempts
    ensures k < MaxAttempts
  {
    if !Retryable(outcomes[0]) then 0 else if !Retryable(outcomes[1]) then 1 else 2
  }

  /** What ending the loop on attempt `a` returns or raises. */
  function Conclude(a: Attempt): Result<string>
  {
    if a.Created? then Ok(a.response) else Err(Failure(a))
  }

  /** What `create_record` returns or raises on these attempt outcomes. */
  function CreateOutcome(outcomes: seq<Attempt>): Result<string>
    requires |outcomes| >= MaxAttempts
  {
    Conclude(outcomes[Decisive(outcomes)])
  }

  /** `AirtableClient.create_record`: `outcomes[k]` is what the k-th attempt
      produced. Returns the result and the payloads it posted, one per
      attempt. */
  method CreateRecord<F>(fields: F, outcomes: seq<Attempt>) returns (r: Result<string>, sent: seq<Payload<F>>)
    requires |outcomes| >= MaxAttempts
    ensures 1 <= |sent| <= MaxAttempts
    ensures forall k :: 0 <= k < |sent| ==> sent[k] == Payload([NewRecord(fields)])
    // only network errors and timeouts lead to another attempt
    ensures forall k :: 0 <= k < |sent| - 1 ==> Retryable(outcomes[k])
    ensures |sent| < MaxAttempts ==> !Retryable(outcomes[|sent| - 1])
    ensures r.Ok? <==> outcomes[|sent| - 1].Created?
    ensures r.Ok? ==> r.value == outcomes[|sent| - 1].response
    ensures r.Err? ==> r.error == Failure(outcomes[|sent| - 1])
    ensures |sent| == Decisive(outcomes) + 1 && r == CreateOutcome(outcomes)
    // three network errors or timeouts in a row: give up, saying three attempts were made
    ensures Retryable(outcomes[0]) && Retryable(outcomes[1]) && Retryable(outcomes[2]) ==>
              |sent| == MaxAttempts && r == Err(GaveUpMessage(outcomes[2].detail))
  {
    var payload := Payload([NewRecord(fields)]);
    sent := [];
    var attempt := 0;
    while attempt < MaxAttempts
      invariant 0 <= attempt < MaxAttempts && |sent| == attempt
      invariant forall k :: 0 <= k < attempt ==> sent[k] == payload && Retryable(outcomes[k])
    {
      sent := sent + [payload];
      var outcome := outcomes[attempt];
      match outcome {
        case Created(response) =>
          return Ok(response), sent;
        case NetworkError(d) =>
          if attempt == MaxAttempts - 1 {
            return Err(GaveUpMessage(d)), sent;
          }
        case Timeout(d) =>
          if attempt == MaxAttempts - 1 {
            return Err(GaveUpMessage(d)), sent;
          }
        case StatusError(body, text, d) =>
          return Err(RejectedMessage(StatusMessage(body, text, d))), sent;
        case Unexpected(d) =>
          return Err(UnexpectedMessage(d)), sent;
      }
      attempt := attempt + 1;
    }
    // Each of the three attempts either returned or raised.
    assert false;
  }
}
