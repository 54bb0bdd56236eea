# GitFeed and Combinestagram screens, modelled in Dafny

This project models the logic inside two iOS screens of an RxSwift training
repository. The UIKit, RxSwift and networking layers are left out.

- **The GitHub activity feed** (`ActivityController`, module `GitFeed`,
  `git_feed.dfy`). Its state is a list of events and an optional
  `Last-Modified` marker. A refresh builds the events request for
  `ReactiveX/RxSwift` and sends the marker, when there is one, in a request
  header named `Last-Modified`. The response then has two independent effects:
  - A 2xx response whose body parses to a non-empty record array is decoded
    and merged into the list. The new events are prepended and the list is
    cut to its first 50.
  - A 2xx or 3xx response with a `Last-Modified` header replaces the marker.
  These status classes are those of section 6 of RFC 7231. The table shows one
  row per event. A row's detail line is the repository, ", ", and the action
  in lower case, with every non-overlapping "Event" met in one left-to-right
  scan removed.
- **The collage editor** (`MainViewController`, module `Combinestagram`,
  `combinestagram.dfy`). Its state is the list of picked images. The save, clear
  and add buttons and the count label are computed from the list's length.
  Clearing empties the list, a picked image is appended, and a completed save
  clears the list.
- **String helpers** (module `Text`, `text.dfy`): ASCII lower-casing, removal of
  every non-overlapping occurrence of a pattern met in one left-to-right scan,
  and the decimal rendering of a count.
  `wrappers.dfy` holds `Option`.

Decoding a record into an event happens in code this model does not contain.
It is a parameter `init: Record -> Option<Event>`, and `Record` is a type
parameter. The network is a parameter `respond: Request -> Option<Response>`,
where `None` is a transport failure. The cached files are inputs to
`LoadCache`.

A few behaviours of the code differ from what a reader of the screens might expect, and the model follows the code:

- The cap of 50 holds only after a merge. The cache load at
  `ActivityController.swift:50-51` decodes the cached array without cutting it,
  so `|events| <= 50` is not an object invariant. A longer cached list is cut
  at the next merge (`MergeEmptyBatch`).
- Any qualifying response overwrites the marker. Nothing compares it with the
  old marker, so an older value can replace a newer one.
- The filter at line 97 drops empty record arrays, not empty decodes. A
  non-empty array whose records all fail to decode still reaches
  `processEvents` as an empty batch (`UndecodableBatchIsEmpty`), and that can
  cut a long cached list.
- The request header is literally `Last-Modified`. The conditional-request
  header of section 3.3 of RFC 7232 is `If-Modified-Since`. The model keeps the
  name as the code writes it.
- Nothing deduplicates events. `processEvents` prepends every batch as it
  arrives, so an event fetched twice appears twice (`MergeKeepsAll`).
- The six-image limit only disables the add button. The append at
  `MainViewController.swift:80` has no guard, so the model states no bound on
  the image count.

## Model

| member | source | states |
|---|---|---|
| `GitFeed.BuildRequest` | Labs/A06.Transform/finish/GitFeed/ActivityController.swift:72-79 | the request goes to the repository's events URL; it has a `Last-Modified` header iff a marker is present, and then that header's value is the marker; it has no other header |
| `GitFeed.RecordsOrEmpty` | Labs/A06.Transform/finish/GitFeed/ActivityController.swift:89-96 | a missing record array (a body that did not parse, or at line 50 an absent or unreadable cache) reads as the empty array; otherwise the array itself |
| `GitFeed.DecodeEvents` | Labs/A06.Transform/finish/GitFeed/ActivityController.swift:99 | decoding never yields more events than there are records |
| `GitFeed.DecodeAppend` | Labs/A06.Transform/finish/GitFeed/ActivityController.swift:99 | decoding commutes with concatenation, so each record contributes its own event, or nothing, in place; together with `DecodeSingle` this pins decoding down as "keep the successful decodes, in order" |
| `GitFeed.DecodeSingle` | Labs/A06.Transform/finish/GitFeed/ActivityController.swift:99 | one record decodes to its own event when `init` succeeds and to nothing when it fails |
| `GitFeed.DecodeAllSucceed` | Labs/A06.Transform/finish/GitFeed/ActivityController.swift:99 | when every record decodes, event i is the decode of record i and nothing is lost |
| `GitFeed.DecodeAllFail` | Labs/A06.Transform/finish/GitFeed/ActivityController.swift:99 | when no record decodes, the batch is empty |
| `GitFeed.DecodedEventsHaveSource` | Labs/A06.Transform/finish/GitFeed/ActivityController.swift:99 | every decoded event is the decode of some record of the batch |
| `GitFeed.EventBatch` | Labs/A06.Transform/finish/GitFeed/ActivityController.swift:85-100 | the merge path yields a batch iff the status is in 200..299 and the parsed record array is non-empty; the batch is that array decoded |
| `GitFeed.NoBatchWithoutRecords` | Labs/A06.Transform/finish/GitFeed/ActivityController.swift:89-97 | an unparseable body or an empty record array yields no batch, so the events are not touched |
| `GitFeed.UndecodableBatchIsEmpty` | Labs/A06.Transform/finish/GitFeed/ActivityController.swift:97-102 | a 2xx response with records that all fail to decode still hands an empty batch to `processEvents` |
| `GitFeed.ResponseMarker` | Labs/A06.Transform/finish/GitFeed/ActivityController.swift:106-115 | the marker path yields a value iff the status is in 200..399 and a `Last-Modified` header is present; the value is that header |
| `GitFeed.NextMarker` | Labs/A06.Transform/finish/GitFeed/ActivityController.swift:116-118 | a response that yields a marker replaces the current one with it; any other response leaves the current marker; so a marker once held is never lost |
| `GitFeed.MarkerIgnoresBody` | Labs/A06.Transform/finish/GitFeed/ActivityController.swift:106-118 | the new marker does not depend on the body, so not on the outcome of the merge path |
| `GitFeed.MarkerKeptUnlessAnnounced` | Labs/A06.Transform/finish/GitFeed/ActivityController.swift:106-118 | the marker changes only on a 2xx or 3xx response that carries the header |
| `GitFeed.MarkerRoundTrip` | Labs/A06.Transform/finish/GitFeed/ActivityController.swift:74-78 | after a qualifying response, the next request's headers are exactly `Last-Modified` set to the value that response announced |
| `GitFeed.MergedEvents` | Labs/A06.Transform/finish/GitFeed/ActivityController.swift:128-133 | the merged list is a prefix of `new + old` whose length is min(50, len(new) + len(old)), hence at most 50 |
| `GitFeed.MergeKeepsAll` | Labs/A06.Transform/finish/GitFeed/ActivityController.swift:129-133 | when len(new) + len(old) <= 50 nothing is dropped: the result is `new + old` |
| `GitFeed.MergeKeepsNewestFirst` | Labs/A06.Transform/finish/GitFeed/ActivityController.swift:129-133 | a batch of at most 50 comes first in its own order, followed by the most recent part of the old list |
| `GitFeed.MergeEmptyBatch` | Labs/A06.Transform/finish/GitFeed/ActivityController.swift:128-133 | an empty batch leaves a list of at most 50 unchanged and cuts a longer one to its first 50 |
| `GitFeed.MergeTwice` | Labs/A06.Transform/finish/GitFeed/ActivityController.swift:128-133 | merging batch a and then batch b equals merging b + a at once: the cap never discards an event a later merge would keep |
| `GitFeed.MergeExample` | Labs/A06.Transform/finish/GitFeed/ActivityController.swift:129-133 | 48 cached events and 5 new ones give 50, the 5 new ones first and then the 45 most recent old ones |
| `GitFeed.DetailText` | Labs/A06.Transform/finish/GitFeed/ActivityController.swift:157 | the detail line starts with the repository and ", "; the rest is no longer than the action and holds no upper-case ASCII letter |
| `GitFeed.DetailTextOfKind` | Labs/A06.Transform/finish/GitFeed/ActivityController.swift:157 | for an action `<Kind>Event` with no earlier overlapping "Event", the detail line is the repository, ", " and the kind in lower case |
| `GitFeed.NoCapitalE` | Labs/A06.Transform/finish/GitFeed/ActivityController.swift:157 | a kind name without a capital E cannot overlap the "Event" suffix |
| `GitFeed.LowercasedPush` | Labs/A06.Transform/finish/GitFeed/ActivityController.swift:157 | "Push" lower-cases to "push" |
| `GitFeed.DetailTextOfPush` | Labs/A06.Transform/finish/GitFeed/ActivityController.swift:157 | a `PushEvent` row reads "<repo>, push" |
| `GitFeed.ActivityController.constructor` | Labs/A06.Transform/finish/GitFeed/ActivityController.swift:34-35 | the event list starts empty and the marker absent |
| `GitFeed.ActivityController.LoadCache` | Labs/A06.Transform/finish/GitFeed/ActivityController.swift:50-53 | the list becomes the decode of the cached array, or empty when there is none, without the cap; the marker becomes the cached one |
| `GitFeed.ActivityController.ProcessEvents` | Labs/A06.Transform/finish/GitFeed/ActivityController.swift:128-133 | the list becomes `MergedEvents(new, old list)`; the marker is unchanged |
| `GitFeed.ActivityController.HandleResponse` | Labs/A06.Transform/finish/GitFeed/ActivityController.swift:85-125 | the list is merged with the response's batch if it yields one and is unchanged otherwise, in particular for any non-2xx status; after a merge it holds at most 50 events; the marker becomes `NextMarker` of the old marker, whatever the merge did |
| `GitFeed.ActivityController.FetchEvents` | Labs/A06.Transform/finish/GitFeed/ActivityController.swift:70-126 | the request is built from the marker held before the call; a transport failure changes nothing; a response is handled as in `HandleResponse` |
| `GitFeed.ActivityController.Refresh` | Labs/A06.Transform/finish/GitFeed/ActivityController.swift:66-68 | a refresh fetches the screen's own repository `ReactiveX/RxSwift`, with the same outcome as `FetchEvents` |
| `GitFeed.ActivityController.NumberOfRows` | Labs/A06.Transform/finish/GitFeed/ActivityController.swift:148-150 | the table has one row per event in the list |
| `GitFeed.ActivityController.CellForRow` | Labs/A06.Transform/finish/GitFeed/ActivityController.swift:152-157 | for any row the table asks for, the cell shows that event's name over its detail line |
| `Text.Lowercased` | Labs/A06.Transform/finish/GitFeed/ActivityController.swift:157 | same length; no upper-case ASCII letter is left; upper-case letters map to their lower-case partners and every other character is kept |
| `Text.LowercasedIdempotent` | Labs/A06.Transform/finish/GitFeed/ActivityController.swift:157 | lower-casing twice is lower-casing once |
| `Text.RemoveOccurrences` | Labs/A06.Transform/finish/GitFeed/ActivityController.swift:157 | removing occurrences only drops characters: the result is no longer than the input and its characters are a sub-multiset of the input's |
| `Text.RemoveLeading` | Labs/A06.Transform/finish/GitFeed/ActivityController.swift:157 | a leading copy of the pattern is dropped and the scan goes on after it |
| `Text.RemoveFirst` | Labs/A06.Transform/finish/GitFeed/ActivityController.swift:157 | the first occurrence of the pattern is dropped, the characters before it are kept in order, and the scan goes on after it; with `RemoveAbsent` this fixes the result on every input |
| `Text.RemoveStep` | Labs/A06.Transform/finish/GitFeed/ActivityController.swift:157 | a first character that does not start the pattern is kept and the scan moves on by one |
| `Text.RemoveAbsent` | Labs/A06.Transform/finish/GitFeed/ActivityController.swift:157 | a string in which the pattern occurs nowhere comes back unchanged |
| `Text.RemoveTrailing` | Labs/A06.Transform/finish/GitFeed/ActivityController.swift:157 | the case of `RemoveFirst` with nothing after the occurrence: a trailing copy of the pattern that no earlier occurrence overlaps is removed and the prefix survives intact |
| `Text.DecimalString` | Labs/A05.iOS.Filtering/starter/Combinestagram/MainViewController.swift:61 | a count renders as a non-empty string of decimal digits with no leading zero |
| `Text.DecimalRoundTrip` | Labs/A05.iOS.Filtering/starter/Combinestagram/MainViewController.swift:61 | parsing a count's rendering gives back the count |
| `Text.DecimalInjective` | Labs/A05.iOS.Filtering/starter/Combinestagram/MainViewController.swift:61 | different counts render differently |
| `Combinestagram.SaveEnabled` | Labs/A05.iOS.Filtering/starter/Combinestagram/MainViewController.swift:58 | save is on only for an even count of at least two, and then clear is on too |
| `Combinestagram.ClearEnabled` | Labs/A05.iOS.Filtering/starter/Combinestagram/MainViewController.swift:59 | clear is off exactly for the empty list |
| `Combinestagram.AddEnabled` | Labs/A05.iOS.Filtering/starter/Combinestagram/MainViewController.swift:60 | add is on exactly while one more image keeps the count within 6 |
| `Combinestagram.PhotoLabel` | Labs/A05.iOS.Filtering/starter/Combinestagram/MainViewController.swift:61 | the label is the decimal count, then a space, and is 7 characters longer than the count, or 8 with the plural; it ends in "s" exactly from two photos on |
| `Combinestagram.UpdateUI` | Labs/A05.iOS.Filtering/starter/Combinestagram/MainViewController.swift:57-62 | save is on iff the count is positive and even, clear iff it is positive, add iff it is below 6, and the label is the count label |
| `Combinestagram.UpdateUIDependsOnCountOnly` | Labs/A05.iOS.Filtering/starter/Combinestagram/MainViewController.swift:57-62 | two lists of the same length show the same controls |
| `Combinestagram.SaveEnabledCounts` | Labs/A05.iOS.Filtering/starter/Combinestagram/MainViewController.swift:58 | among counts 0..6, save is on exactly at 2, 4 and 6 |
| `Combinestagram.SaveImpliesClear` | Labs/A05.iOS.Filtering/starter/Combinestagram/MainViewController.swift:58-59 | whenever save is on, clear is on |
| `Combinestagram.ControlsWhenEmpty` | Labs/A05.iOS.Filtering/starter/Combinestagram/MainViewController.swift:58-61 | with no images, save and clear are off, add is on, and the label reads "0  photo" |
| `Combinestagram.PhotoLabelReadsBack` | Labs/A05.iOS.Filtering/starter/Combinestagram/MainViewController.swift:61 | the label's leading digits parse back to the count, and the rest is "  photo", or "  photos" when the count is at least 2 |
| `Combinestagram.PhotoLabelPlural` | Labs/A05.iOS.Filtering/starter/Combinestagram/MainViewController.swift:61 | the label ends in "s" iff the count is at least 2 |
| `Combinestagram.PhotoLabelExamples` | Labs/A05.iOS.Filtering/starter/Combinestagram/MainViewController.swift:61 | the labels for 0, 1 and 2 are "0  photo", "1  photo" and "2  photos" |
| `Combinestagram.MainViewController.constructor` | Labs/A05.iOS.Filtering/starter/Combinestagram/MainViewController.swift:35 | the image list starts empty |
| `Combinestagram.MainViewController.ActionClear` | Labs/A05.iOS.Filtering/starter/Combinestagram/MainViewController.swift:69-71 | the list becomes empty, after which save and clear are off and add is on |
| `Combinestagram.MainViewController.AddPickedImage` | Labs/A05.iOS.Filtering/starter/Combinestagram/MainViewController.swift:77-80 | the picked image is appended at the end, and the earlier images keep their places and order |
| `Combinestagram.MainViewController.ActionSave` | Labs/A05.iOS.Filtering/starter/Combinestagram/MainViewController.swift:87-89 | the tap starts a save iff there is a preview image, and leaves the list unchanged |
| `Combinestagram.MainViewController.SaveFinished` | Labs/A05.iOS.Filtering/starter/Combinestagram/MainViewController.swift:90-101 | when the asynchronous save completes, "Save" is shown and the list is cleared as it is at that moment, images picked meanwhile included; when it fails, "Error" with the failure's description is shown and the list is unchanged |

## Left out

- Networking (`URLSession.shared.rx.response`): a response is a status code, an optional record array and a header map, produced by the `respond` parameter.
- JSON parsing (`JSONSerialization`): a body that is not JSON, or not an array of dictionaries, is `None`. Lines 90-94 map that case to the empty array.
- The event type's initializer and its `dictionary` encoding are not part of this model. The initializer is the `init` parameter. The encoding is used only to write the cache.
- File caching is I/O. This covers `NSArray(contentsOf:)` and `write(to:)` (lines 50, 134-135), the marker file read and write (lines 53, 119-123), and `cachedFileURL` with its `print` (lines 138-145). The cache contents are inputs to `LoadCache`, and what is written back is not modelled.
- RxSwift plumbing: `Variable`, `observeOn`, `shareReplay`, the dispose bags and weak-self captures. Overlapping refreshes can race into the list in any order, and that concurrency is not modelled. One response is handled as one atomic step.
- UI: the refresh control, the table reload, avatar loading, the `title`, and the cell's image. On the collage screen: collage composition, `PhotoWriter.save`, `showMessage`, the picker's navigation and storyboard instantiation, the large-title setting, the resource-count `print` in `viewWillAppear` and the `print("Complete photo selection.")` when the picker's subscription is disposed (line 82). The save outcome is the `outcome` parameter of `SaveFinished` and the presence of a preview image is `hasPreview` of `ActionSave`. The message the screen would show is returned instead of presented.
- GitFeed.ActivityController.FetchEvents: builds a request for any repository name. The source's `URL(string:)!` at line 72 traps when the name does not form a valid URL; that trap is not modelled. `Refresh`, like `refresh()`, passes only the constant `ReactiveX/RxSwift`, for which the URL is valid.
- GitFeed.ResponseMarker: the header is looked up with the exact key `Last-Modified`. Any case-insensitive matching that the platform's header dictionary may do is not modelled.
- Text.Lowercased: lower-cases ASCII letters only. Swift's `lowercased()` also maps non-ASCII letters.
- Text.RemoveOccurrences: models the literal, left-to-right, non-overlapping search of `replacingOccurrences(of:with:)` on characters. Foundation's comparison of composed Unicode sequences is not modelled.
- `GitFeed.Event` keeps only the fields the screen reads (name, repository, action, avatar URL). Any other field of the event type is not part of this model.
- Combinestagram.MainViewController.SaveFinished: the screen keeps no record of which saves are running. A completion is not paired with the tap that started it, and the model does not rule out a completion without a tap, just as the source tracks nothing. The order in which taps, picks and completions arrive is the caller's choice; `SaveClearsLatePick` shows one such order.
