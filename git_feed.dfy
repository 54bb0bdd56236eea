/**
 * The GitHub activity feed screen (GitFeed's `ActivityController`): a list of
 * events, most recent first and capped at fifty by each merge, and an optional
 * `Last-Modified` marker. A refresh builds a request that carries the marker,
 * and the response feeds two independent effects: a 2xx response with a
 * non-empty record array merges its decoded events into the list, and a 2xx or
 * 3xx response that carries a `Last-Modified` header replaces the marker.
 *
 * Records are left as a type parameter and the event initializer, which lives
 * in a file outside this model, as a partial function `Record -> Option<Event>`.
 */
module GitFeed {
  import opened Wrappers
  import opened Text

  /** The repository whose feed the screen shows. */
  const Repo: string := "ReactiveX/RxSwift"

  /** The most events a merge keeps. */
  const MaxEvents: nat := 50

  /** The header the marker travels in, on the request as on the response. */
  const LastModifiedHeader: string := "Last-Modified"

  /** The suffix of GitHub's event type names that the detail text drops. */
  const EventSuffix: string := "Event"

  /** The fields of a feed event that the screen shows. */
  datatype Event = Event(name: string, repo: string, action: string, imageUrl: string)

  datatype Request = Request(url: string, headers: map<string, string>)

  /**
   * An HTTP response: its status code, its body as an array of records (None
   * when the body is not JSON or not an array of dictionaries) and its headers.
   */
  datatype Response<Record> = Response(statusCode: int, body: Option<seq<Record>>, headers: map<string, string>)

  /** The two lines of a table cell. */
  datatype Cell = Cell(text: string, detailText: string)

  function Min(a: int, b: int): int { if a <= b then a else b }

  // ---------------------------------------------------------------------------
  // Building the request

  function EventsUrl(repo: string): string
  {
    "https://api.github.com/repos/" + repo + "/events"
  }

  /**
   * The request for a repository's events. The marker, when there is one, is
   * sent in a header named `Last-Modified`; without a marker the request has no
   * headers at all.
   */
  function BuildRequest(repo: string, marker: Option<string>): (r: Request)
    ensures r.url == EventsUrl(repo)
    ensures LastModifiedHeader in r.headers <==> marker.Some?
    ensures marker.Some? ==> r.headers[LastModifiedHeader] == marker.value
    ensures r.headers.Keys <= {LastModifiedHeader}
  {
    var request := Request(EventsUrl(repo), map[]);
    match marker
    case Some(m) => request.(headers := request.headers[LastModifiedHeader := m])
    case None => request
  }

  // ---------------------------------------------------------------------------
  // Decoding

  /**
   * A record array that may be missing, with a missing one read as empty. It
   * serves both the cache load (an absent or unreadable cache file) and a
   * response body that did not parse as an array of records.
   */
  function RecordsOrEmpty<Record>(body: Option<seq<Record>>): (records: seq<Record>)
    ensures body.None? ==> records == []
    ensures body.Some? ==> records == body.value
  {
    body.GetOr([])
  }

  /** One record's contribution to a decoded batch. */
  function DecodeOne<Record>(record: Record, init: Record -> Option<Event>): seq<Event>
  {
    match init(record)
    case Some(e) => [e]
    case None => []
  }

  /**
   * `records.flatMap(Event.init)`: the events of the records that decode, in
   * the records' order; records that fail to decode are dropped.
   */
  function DecodeEvents<Record>(records: seq<Record>, init: Record -> Option<Event>): (events: seq<Event>)
    ensures |events| <= |records|
  {
    if records == [] then []
    else DecodeOne(records[0], init) + DecodeEvents(records[1..], init)
  }

  /** Decoding a concatenation decodes each part and concatenates the results. */
  lemma {:induction false} DecodeAppend<Record>(a: seq<Record>, b: seq<Record>, init: Record -> Option<Event>)
    ensures DecodeEvents(a + b, init) == DecodeEvents(a, init) + DecodeEvents(b, init)
  {
    if a == [] {
      assert a + b == b;
    } else {
      assert (a + b)[0] == a[0];
      assert (a + b)[1..] == a[1..] + b;
      DecodeAppend(a[1..], b, init);
    }
  }

  /** A single record decodes to its own event, or to nothing when `init` fails. */
  lemma DecodeSingle<Record>(record: Record, init: Record -> Option<Event>)
    ensures DecodeEvents([record], init) == DecodeOne(record, init)
    ensures init(record).Some? ==> DecodeEvents([record], init) == [init(record).value]
    ensures init(record).None? ==> DecodeEvents([record], init) == []
  {
    assert [record][1..] == [];
  }

  /** When every record decodes, the batch has an event per record, in order. */
  lemma {:induction false} DecodeAllSucceed<Record>(records: seq<Record>, init: Record -> Option<Event>)
    requires forall i :: 0 <= i < |records| ==> init(records[i]).Some?
    ensures |DecodeEvents(records, init)| == |records|
    ensures forall i :: 0 <= i < |records| ==> DecodeEvents(records, init)[i] == init(records[i]).value
  {
    if records != [] {
      assert init(records[0]).Some?;
      DecodeAllSucceed(records[1..], init);
    }
  }

  /** When no record decodes, the batch is empty. */
  lemma {:induction false} DecodeAllFail<Record>(records: seq<Record>, init: Record -> Option<Event>)
    requires forall i :: 0 <= i < |records| ==> init(records[i]).None?
    ensures DecodeEvents(records, init) == []
  {
    if records != [] {
      assert init(records[0]).None?;
      DecodeAllFail(records[1..], init);
    }
  }

  /** Every decoded event comes from some record of the batch. */
  lemma {:induction false} DecodedEventsHaveSource<Record>(records: seq<Record>, init: Record -> Option<Event>, k: nat)
    requires k < |DecodeEvents(records, init)|
    ensures exists i :: 0 <= i < |records| && init(records[i]) == Some(DecodeEvents(records, init)[k])
  {
    var head := DecodeOne(records[0], init);
    if k < |head| {
      assert init(records[0]) == Some(DecodeEvents(records, init)[k]);
    } else {
      DecodedEventsHaveSource(records[1..], init, k - |head|);
      var i :| 0 <= i < |records[1..]| && init(records[1..][i]) == Some(DecodeEvents(records[1..], init)[k - |head|]);
      assert init(records[i + 1]) == Some(DecodeEvents(records, init)[k]);
    }
  }

  // ---------------------------------------------------------------------------
  // The two response filters

  predicate IsSuccess(statusCode: int) { 200 <= statusCode < 300 }

  predicate IsSuccessOrRedirect(statusCode: int) { 200 <= statusCode < 400 }

  /**
   * The event-merge path: a batch is produced exactly for a 2xx response whose
   * body holds a non-empty record array, and it is that array decoded.
   */
  function EventBatch<Record>(response: Response<Record>, init: Record -> Option<Event>): (batch: Option<seq<Event>>)
    ensures batch.Some? <==> IsSuccess(response.statusCode) && |RecordsOrEmpty(response.body)| > 0
    ensures batch.Some? ==> batch.value == DecodeEvents(response.body.value, init)
  {
    if !IsSuccess(response.statusCode) then None
    else
      var objects := RecordsOrEmpty(response.body);
      if |objects| > 0 then Some(DecodeEvents(objects, init)) else None
  }

  /** A body that did not parse, or an empty record array, yields no batch at all. */
  lemma NoBatchWithoutRecords<Record>(response: Response<Record>, init: Record -> Option<Event>)
    requires response.body.None? || response.body == Some([])
    ensures EventBatch(response, init) == None
  {
  }

  /**
   * A 2xx response with records none of which decode still yields a batch:
   * the empty one, which `processEvents` receives.
   */
  lemma {:induction false} UndecodableBatchIsEmpty<Record>(response: Response<Record>, init: Record -> Option<Event>)
    requires IsSuccess(response.statusCode)
    requires response.body.Some? && |response.body.value| > 0
    requires forall i :: 0 <= i < |response.body.value| ==> init(response.body.value[i]).None?
    ensures EventBatch(response, init) == Some([])
  {
    DecodeAllFail(response.body.value, init);
  }

  /**
   * The marker path: a new marker is produced exactly for a 2xx or 3xx
   * response that carries a `Last-Modified` header, and it is that header.
   */
  function ResponseMarker<Record>(response: Response<Record>): (marker: Option<string>)
    ensures marker.Some? <==> IsSuccessOrRedirect(response.statusCode) && LastModifiedHeader in response.headers
    ensures marker.Some? ==> marker.value == response.headers[LastModifiedHeader]
  {
    if IsSuccessOrRedirect(response.statusCode) && LastModifiedHeader in response.headers
    then Some(response.headers[LastModifiedHeader])
    else None
  }

  /** The marker after a response has been handled. */
  function NextMarker<Record>(current: Option<string>, response: Response<Record>): (next: Option<string>)
    ensures ResponseMarker(response).Some? ==> next == ResponseMarker(response)
    ensures ResponseMarker(response).None? ==> next == current
    ensures current.Some? ==> next.Some?
  {
    match ResponseMarker(response)
    case Some(m) => Some(m)
    case None => current
  }

  /** The marker does not depend on the body, so not on the event-merge outcome. */
  lemma MarkerIgnoresBody<Record>(current: Option<string>, response: Response<Record>, body: Option<seq<Record>>)
    ensures NextMarker(current, response) == NextMarker(current, response.(body := body))
  {
  }

  /** A 2xx or 3xx response without the header, or any other response, keeps the marker. */
  lemma MarkerKeptUnlessAnnounced<Record>(current: Option<string>, response: Response<Record>)
    ensures NextMarker(current, response) != current ==>
              IsSuccessOrRedirect(response.statusCode) && LastModifiedHeader in response.headers
  {
  }

  /** The next request sends back exactly the marker that a qualifying response announced. */
  lemma MarkerRoundTrip<Record>(repo: string, current: Option<string>, response: Response<Record>)
    requires IsSuccessOrRedirect(response.statusCode) && LastModifiedHeader in response.headers
    ensures BuildRequest(repo, NextMarker(current, response)).headers
              == map[LastModifiedHeader := response.headers[LastModifiedHeader]]
  {
  }

  // ---------------------------------------------------------------------------
  // Merging a batch into the list

  /**
   * The list after `processEvents(newEvents)`: the first
   * min(50, |newEvents| + |current|) events of `newEvents + current`.
   */
  function MergedEvents(newEvents: seq<Event>, current: seq<Event>): (merged: seq<Event>)
    ensures |merged| == Min(MaxEvents, |newEvents| + |current|)
    ensures merged <= newEvents + current
  {
    var all := newEvents + current;
    if |all| > MaxEvents then all[..MaxEvents] else all
  }

  /** Nothing is dropped while both lists fit in fifty. */
  lemma MergeKeepsAll(newEvents: seq<Event>, current: seq<Event>)
    requires |newEvents| + |current| <= MaxEvents
    ensures MergedEvents(newEvents, current) == newEvents + current
  {
  }

  /**
   * New events come first, in their order, and what is kept of the old list
   * is its most recent part.
   */
  lemma MergeKeepsNewestFirst(newEvents: seq<Event>, current: seq<Event>)
    requires |newEvents| <= MaxEvents
    ensures MergedEvents(newEvents, current)[..|newEvents|] == newEvents
    ensures MergedEvents(newEvents, current)[|newEvents|..]
              == current[..Min(MaxEvents, |newEvents| + |current|) - |newEvents|]
  {
  }

  /** An empty batch leaves a list of at most fifty alone, and cuts a longer one to fifty. */
  lemma MergeEmptyBatch(current: seq<Event>)
    ensures |current| <= MaxEvents ==> MergedEvents([], current) == current
    ensures |current| > MaxEvents ==> MergedEvents([], current) == current[..MaxEvents]
  {
  }

  /**
   * Merging batch `a` and then batch `b` gives the same list as merging
   * `b + a` at once: the cap never loses an event that a later merge would
   * have kept.
   */
  lemma MergeTwice(b: seq<Event>, a: seq<Event>, current: seq<Event>)
    ensures MergedEvents(b, MergedEvents(a, current)) == MergedEvents(b + a, current)
  {
  }

  /** Forty-eight cached events and five new ones give fifty, the five first. */
  lemma MergeExample(newEvents: seq<Event>, current: seq<Event>)
    requires |newEvents| == 5 && |current| == 48
    ensures |MergedEvents(newEvents, current)| == 50
    ensures MergedEvents(newEvents, current)[..5] == newEvents
    ensures MergedEvents(newEvents, current)[5..] == current[..45]
  {
  }

  // ---------------------------------------------------------------------------
  // The table's detail line

  /** The detail line of a cell: the repository, then the action without "Event", in lower case. */
  function DetailText(e: Event): (line: string)
    ensures |e.repo| + 2 <= |line| <= |e.repo| + 2 + |e.action|
    ensures line[..|e.repo| + 2] == e.repo + ", "
    ensures forall i :: |e.repo| + 2 <= i < |line| ==> !IsAsciiUpper(line[i])
  {
    var kind := Lowercased(RemoveOccurrences(e.action, EventSuffix));
    assert forall i :: |e.repo| + 2 <= i < |e.repo| + 2 + |kind| ==>
      (e.repo + ", " + kind)[i] == kind[i - |e.repo| - 2];
    e.repo + ", " + kind
  }

  /**
   * For an action of the form `<Kind>Event` in which no earlier occurrence of
   * "Event" overlaps the suffix, the detail line is "<repo>, <kind in lower case>".
   */
  lemma DetailTextOfKind(e: Event, kind: string)
    requires e.action == kind + EventSuffix
    requires forall i :: 0 <= i < |kind| ==> !OccursAt(kind + EventSuffix, EventSuffix, i)
    ensures DetailText(e) == e.repo + ", " + Lowercased(kind)
  {
    RemoveTrailing(kind, EventSuffix);
  }

  /** A kind name without a capital E cannot overlap the "Event" suffix. */
  lemma NoCapitalE(kind: string)
    requires forall i :: 0 <= i < |kind| ==> kind[i] != 'E'
    ensures forall i :: 0 <= i < |kind| ==> !OccursAt(kind + EventSuffix, EventSuffix, i)
  {
    forall i | 0 <= i < |kind|
      ensures !OccursAt(kind + EventSuffix, EventSuffix, i)
    {
      var s := kind + EventSuffix;
      assert s[i] == kind[i] != 'E';
      assert i + |EventSuffix| <= |s| ==> s[i..i + |EventSuffix|][0] == s[i];
    }
  }

  lemma LowercasedPush()
    ensures Lowercased("Push") == "push"
  {
  }

  /** A push event's detail line names the repository and "push". */
  lemma DetailTextOfPush(e: Event)
    requires e.action == "PushEvent"
    ensures DetailText(e) == e.repo + ", " + "push"
  {
    var kind := "Push";
    assert kind + EventSuffix == e.action;
    NoCapitalE(kind);
    DetailTextOfKind(e, kind);
    LowercasedPush();
  }

  // ---------------------------------------------------------------------------
  // The screen's state

  class ActivityController<Record> {
    /** `Event.init`, which this model does not define. */
    const init: Record -> Option<Event>
    var events: seq<Event>
    var lastModified: Option<string>

    /** Both state variables start out empty. */
    constructor (init: Record -> Option<Event>)
      ensures this.init == init
      ensures events == [] && lastModified == None
    {
      this.init := init;
      events := [];
      lastModified := None;
    }

    /**
     * The cache load of `viewDidLoad`: the cached record array (absent or
     * unreadable counts as empty) is decoded as it is, without the cap, and
     * the cached marker is taken over.
     */
    method LoadCache(cachedRecords: Option<seq<Record>>, cachedMarker: Option<string>)
      modifies this
      ensures events == DecodeEvents(RecordsOrEmpty(cachedRecords), init)
      ensures lastModified == cachedMarker
    {
      var eventArray := cachedRecords.GetOr([]);
      events := DecodeEvents(eventArray, init);
      lastModified := cachedMarker;
    }

    /** Prepends a batch and keeps the first fifty; the marker is untouched. */
    method ProcessEvents(newEvents: seq<Event>)
      modifies this
      ensures events == MergedEvents(newEvents, old(events))
      ensures lastModified == old(lastModified)
    {
      var updatedEvents := newEvents + events;
      if |updatedEvents| > MaxEvents {
        updatedEvents := updatedEvents[..MaxEvents];
      }
      events := updatedEvents;
    }

    /**
     * Both subscriptions of `fetchEvents` applied to one response: the batch,
     * if the response yields one, is merged; the marker, if the response
     * announces one, replaces the old one.
     */
    method HandleResponse(response: Response<Record>)
      modifies this
      ensures events == match EventBatch(response, init)
                        case Some(batch) => MergedEvents(batch, old(events))
                        case None => old(events)
      ensures !IsSuccess(response.statusCode) ==> events == old(events)
      ensures EventBatch(response, init).Some? ==> |events| <= MaxEvents
      ensures lastModified == NextMarker(old(lastModified), response)
    {
      var batch := EventBatch(response, init);
      if batch.Some? {
        ProcessEvents(batch.value);
      }
      var marker := ResponseMarker(response);
      if marker.Some? {
        lastModified := marker;
      }
    }

    /**
     * A refresh: the request is built from the current marker and handed to
     * `respond`, which stands for the network; None is a transport failure,
     * which ends the pipeline without changing anything.
     */
    method FetchEvents(repo: string, respond: Request -> Option<Response<Record>>)
      modifies this
      ensures var outcome := respond(BuildRequest(repo, old(lastModified)));
              match outcome
              case None => events == old(events) && lastModified == old(lastModified)
              case Some(response) =>
                (events == match EventBatch(response, init)
                           case Some(batch) => MergedEvents(batch, old(events))
                           case None => old(events)) &&
                lastModified == NextMarker(old(lastModified), response)
    {
      var request := BuildRequest(repo, lastModified);
      var outcome := respond(request);
      if outcome.Some? {
        HandleResponse(outcome.value);
      }
    }

    /** `refresh()`: a fetch of the screen's own repository. */
    method Refresh(respond: Request -> Option<Response<Record>>)
      modifies this
      ensures var outcome := respond(BuildRequest(Repo, old(lastModified)));
              match outcome
              case None => events == old(events) && lastModified == old(lastModified)
              case Some(response) =>
                (events == match EventBatch(response, init)
                           case Some(batch) => MergedEvents(batch, old(events))
                           case None => old(events)) &&
                lastModified == NextMarker(old(lastModified), response)
    {
      FetchEvents(Repo, respond);
    }

    /** The table has one row per event. */
    function NumberOfRows(): (n: nat)
      reads this
      ensures n == |events|
    {
      |events|
    }

    /** The cell of a row: the event's name over its detail line. */
    function CellForRow(row: nat): (cell: Cell)
      reads this
      requires row < NumberOfRows()
      ensures cell.text == events[row].name
      ensures cell.detailText == DetailText(events[row])
    {
      var event := events[row];
      Cell(event.name, DetailText(event))
    }
  }
}
