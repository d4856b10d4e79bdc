# LDownload: verified models of its protocols and stores

This project models the parts of LDownload whose correctness depends on many
steps or many calls at once, and proves what those parts promise. Each file is
one component:

| file | component |
|---|---|
| `BatchChunking.dfy` | the splitter of a download batch into native-messaging frames |
| `NativeMessaging.dfy`, `NativeMessagingResults.dfy`, `NativeMessagingCalls.dfy`, `NativeClient.dfy` | the native-messaging client: ids, timers, port loss, the retry with its probe |
| `Dispatch.dfy` | sending a batch over the native channel, the old-App loop, the remote fallback |
| `Json.dfy`, `Text.dfy`, `Wrappers.dfy`, `Sorting.dfy` | JSON trees, text, 64-bit decimal numbers, optional values, the stable sort |
| `Aria2.dfy`, `GlobalOptions.dfy` | GIDs, status buckets, paging, global options |
| `Auth.dfy` | the constant-time comparison |
| `JsonRpc.dfy`, `JsonRpcResults.dfy`, `JsonRpcMethods.dfy`, `JsonRpcListing.dfy` | the aria2-compatible JSON-RPC layer over a stateful host |
| `BudgetedScan.dfy` | the two budgeted depth-first searches of the extension |
| `ResourceStore.dfy`, `UrlDedup.dfy` | the per-tab resource store and the canonical URL it is keyed by |
| `Reconcile.dfy` | the keyed reconciliation of the popup's task list |
| `PopupHost.dfy` | the quick-download popup of the three desktop hosts |
| `FloatingBall.dfy` | the docking and collapsing Linux ball |
| `MailRun.dfy` | the resumable release-mail script |
| `ExtraArgs.dfy` | the tokenizer for extra yt-dlp arguments |
| `Ico.dfy` | the icon writer |

How the components are stated: code that only computes is a function. Code that
works step by step is a method or a class whose `ensures` clauses equate what it
leaves behind with a specification function (`Step`, `Handle`, `AddAll`, ...);
the theorems are about those functions, over every input or every run. What the
outside decides (replies, time-outs, lost ports, crashes, host answers, the
clock, the work area) is a parameter or an event, so a theorem about a run holds
whatever the outside does.

Some results say where the code does less than a reader might expect.

With the exact condition, and an input that shows it:

* `Dispatch.ResendsExactly`: after an acknowledged chunk the batch still goes to
  the remote server when, in fallback mode, a later chunk throws instead of
  failing, and in no other case. `ResendsAfterThrow` is such a batch. What
  can throw in `sendMessage` outside its two `try` blocks is the registration of
  listeners on a port just connected (`native-messaging.ts:155-173`); a later
  chunk gets there when the port was lost after the earlier ones.
* `PopupHost.ShownWithoutRequestExactly`: the popup is on screen without an
  outstanding request exactly when a reveal came after the request ended;
  `ShownWithoutRequest` is such a run.
* `FloatingBall.DockIsStableExactly`: judging a docked ball again keeps its edge
  except on the right of a work area no wider than the ball plus the snap
  distance; `NarrowAreaLosesRightDock` is such an area.
* `NativeMessagingResults.SuccessMeansExactly`: a reported success means that the App
  acted on the action, provided the App confirms nothing it did not act on,
  unless the call returned on the answer to its liveness probe, and then it never
  does: the same run with an idle App looks the same to the client. Such a report
  carries the text "delivered (reconnected after transient failure)".
  `SuccessIsNotDelivery` is such a run, with an App that confirms nothing wrongly.
* `NativeMessagingResults.TwiceExactly`: the client can rule out that the App acted twice
  except when both copies of the action entered the channel; `PremiseIsNeeded` is
  a run in which the App then does act twice. `ActedOnAtMostOnce` is what holds
  under the code's own premise that a failed probe means the first copy is never
  handled.
* `FloatingBall.HiddenWakesExactly`: a hidden ball at rest can come to slide
  again, before it is shown, exactly when its window is still there and it was
  collapsed; `StepHiddenSlides` gives the exact condition event by event and
  `DragWakesHiddenBall` the drag that does it. `HiddenSlideEndsAtOnce`: the first
  tick ends such a slide without a move. Whether the window system delivers a
  drag-motion event to a hidden window is not part of this model.

Where documentation and code disagree the code is followed. The comment above
the batch sender says a delivered chunk rules out every resend; the guard it
describes covers a failed reply and not an exception (`Dispatch.ResendsExactly`).

## Model

| member | source | states |
|---|---|---|
| BatchChunking.ChunkBatchWireItems | ldownload/utils/native-messaging.ts:364-387 | the one-pass splitter computes the reference greedy split |
| BatchChunking.GreedyIsSplit | ldownload/utils/native-messaging.ts:359-387 | every item appears once and in order; each frame has 1 to 1000 items and is a single item or at most 700 KiB |
| BatchChunking.GreedyIsOptimal | ldownload/utils/native-messaging.ts:359-387 | no contiguous split under the same limits has fewer frames |
| BatchChunking.GreedyIsBest | ldownload/utils/native-messaging.ts:359-387 | in plain numbers: every item once and in order, frames of 1 to 1000 items and at most 716800 bytes unless single, and no contiguous split within these limits has fewer frames |
| BatchChunking.LongestIsMaximal | ldownload/utils/native-messaging.ts:371-384 | a frame is closed only when the next item really does not fit |
| BatchChunking.GreedySuffix | ldownload/utils/native-messaging.ts:364-387 | dropping items from the front never costs a frame |
| NativeMessaging.EveryRunAccounted | ldownload/utils/native-messaging.ts:155-193 | in every run each issued id is pending or settled exactly once, ids are not reused, and the live timers are those of the pending ids |
| NativeMessaging.StepAccounted | ldownload/utils/native-messaging.ts:213-242 | every single event keeps that account |
| NativeMessaging.SettledByOwnEvent | ldownload/utils/native-messaging.ts:155-193 | over a whole run, every settlement was made at one event of the run, and that event is its reply, its timer, the port loss or the failing post |
| NativeMessaging.StepProgress | ldownload/utils/native-messaging.ts:159-192 | each settlement belongs to an event of its own: its reply, its timer, the port loss, or the failing post |
| NativeMessaging.EveryRunGood | ldownload/utils/native-messaging.ts:250-298 | in every run each retrying call has a reason for every frame it sent, and every frame has an owner |
| NativeMessagingResults.PostedAtMostTwice | ldownload/utils/native-messaging.ts:250-298 | a call hands its action to postMessage at most twice in any run, failing posts included |
| NativeMessagingResults.SecondPostReason | ldownload/utils/native-messaging.ts:278-297 | a call tries its action again only after a first post that never entered the channel or a failed probe, or a reply in the words of a failed post |
| NativeMessagingResults.PostedTwiceIsRetried | ldownload/utils/native-messaging.ts:250-298 | two posts of one action are the first and the second attempt of its call, in that order |
| NativeMessagingResults.SecondCopyReason | ldownload/utils/native-messaging.ts:278-297 | so two copies in the channel mean a failed probe, or such a reply |
| NativeMessaging.EveryRunPosted | ldownload/utils/native-messaging.ts:213-242 | in every run each post has a new id and an attempt that accounts for it, and only posts enter the channel |
| NativeMessagingResults.ActedOnAtMostOnce | ldownload/utils/native-messaging.ts:282-297 | if a failed probe means the first copy is never handled, the App acts on the action at most once |
| NativeMessagingResults.PremiseIsNeeded | ldownload/utils/native-messaging.ts:282-297 | without that premise there is a run in which the App acts twice |
| NativeMessagingResults.SuccessIsNotDelivery | ldownload/utils/native-messaging.ts:278-292 | there is a run that reports success although nothing was handled |
| NativeMessagingResults.SuccessMeans | ldownload/utils/native-messaging.ts:255-298 | success is exactly a successful answer to the last thing sent, action or probe |
| NativeMessagingResults.SuccessIsDelivery | ldownload/utils/native-messaging.ts:250-298 | in every run with an App that confirms only what it acted on, a successful call that did not return on its probe was acted on; one that did carries the reconnected text |
| NativeMessagingResults.SilentLooksTheSame | ldownload/utils/native-messaging.ts:250-298 | a run and the same run with an idle App leave the client in the same state |
| NativeMessagingResults.ProbeSaysNothing | ldownload/utils/native-messaging.ts:282-292 | a call that returned on its probe sees the same as in a run in which the App never acts |
| NativeMessagingResults.SuccessMeansExactly | ldownload/utils/native-messaging.ts:250-298 | a reported success is certain delivery, over all runs that look the same to the client, exactly unless the call returned on its probe |
| NativeMessagingResults.TwiceExactly | ldownload/utils/native-messaging.ts:278-297 | some run that looks the same to the client has the App act twice exactly when two copies of the action entered the channel |
| NativeMessagingCalls.FinishedCall | ldownload/utils/native-messaging.ts:250-298 | in every run a finished call has asked whether the App is alive, tried again and answered exactly as its answers demand: the four transient texts and the probe's success decide, and any other answer ends it at once |
| NativeMessagingCalls.ResumedGoesOn | ldownload/utils/native-messaging.ts:255-298 | a call goes on exactly when its latest attempt is answered, by one attempt or by returning |
| NativeMessagingCalls.EventsSettle | ldownload/utils/native-messaging.ts:155-193 | a reply, the request's own timer or the loss of the port ends a pending request, each in its own words, the first two no other request and the last all of them |
| NativeMessagingCalls.StartSends | ldownload/utils/native-messaging.ts:213-242 | a new call hands its action over under the next id, over the port there is or a new one; without one, or if the post fails, it is answered so at once |
| NativeMessagingCalls.PlainSends | ldownload/utils/native-messaging.ts:213-242 | so does other traffic, without touching a call |
| NativeMessagingCalls.ResumeSends | ldownload/utils/native-messaging.ts:259-265 | a probe or second attempt goes over a new port or not at all, and a resumed call sends nothing else |
| NativeClient.Client.SettleRequest | ldownload/utils/native-messaging.ts:159-170 | settling one request is the model's settlement |
| NativeClient.Client.DropPort | ldownload/utils/native-messaging.ts:198-207 | the port is forgotten, pending requests stay |
| NativeClient.Client.Send | ldownload/utils/native-messaging.ts:213-242 | sending is the model's step, unreachable port and failing post included |
| NativeClient.Client.MessageArrives | ldownload/utils/native-messaging.ts:155-171 | a reply settles the request it names and nothing else |
| NativeClient.Client.TimerExpires | ldownload/utils/native-messaging.ts:226-229 | a timer settles its own request as timed out |
| NativeClient.Client.PortDisconnects | ldownload/utils/native-messaging.ts:173-193 | losing the port settles every pending request, in order |
| NativeClient.Client.StartRetrying | ldownload/utils/native-messaging.ts:250-256 | a retrying call begins with one send |
| NativeClient.Client.ResumeRetrying | ldownload/utils/native-messaging.ts:256-298 | what the call does next: return, probe, or send again |
| Dispatch.SendAllChunks | ldownload/utils/native-messaging.ts:467-489 | the chunk loop is the model's loop, effects and answer |
| Dispatch.NmhSendBatchDownloadLegacy | ldownload/utils/native-messaging.ts:394-440 | the old-App loop offers every item once and summarises as the model does, rejected items included |
| Dispatch.NmhSendBatchDownloadRequest | ldownload/utils/native-messaging.ts:460-490 | a native batch is the model's batch |
| Dispatch.SendBatchDownloadRequest | ldownload/utils/download-dispatch.ts:146-177 | a routed batch is the model's routed batch |
| Dispatch.OffersAreAPrefix | ldownload/utils/native-messaging.ts:469-487 | chunks are offered in order, none after the first that is not acknowledged |
| Dispatch.LegacyExactly | ldownload/utils/native-messaging.ts:475-483 | the item loop runs exactly when the very first chunk is refused as unknown, and then offers each item once |
| Dispatch.UnreachableIsNotLegacy | ldownload/utils/download-dispatch.ts:59-73 | no unreachable text is taken for an old App's refusal |
| Dispatch.SummariesAreReachable | ldownload/utils/download-dispatch.ts:59-73 | no summary the client writes itself is taken for an unreachable host |
| Dispatch.FallsThroughExactly | ldownload/utils/download-dispatch.ts:146-177 | the native answer sends the batch on exactly when the first chunk failed with one of the five texts or some chunk threw |
| Dispatch.RemoteExactly | ldownload/utils/download-dispatch.ts:117-177 | the remote gets the batch at most once and last, exactly in mode always or on such a fall-through in mode fallback, and the stamp says so |
| Dispatch.NmhNeverResends | ldownload/utils/native-messaging.ts:473-485 | the native channel alone never sends anything again after an acknowledgement |
| Dispatch.ResendsExactly | ldownload/utils/download-dispatch.ts:146-177 | something is sent again after an acknowledged chunk exactly when a later chunk throws in mode fallback |
| Dispatch.ResendsAfterThrow | ldownload/utils/download-dispatch.ts:159-176 | a concrete batch: its first chunk acknowledged, its second throwing, then all of it sent to the remote server |
| Dispatch.BatchAnswer | ldownload/utils/native-messaging.ts:460-490 | the answer of a batch for every environment: success with the number of items, the rejection, how far a partly sent batch got and why, the App's own refusal, or the summary of the single items |
| Dispatch.NothingToSend | ldownload/utils/native-messaging.ts:460-466 | an empty batch is a failure and sends nothing |
| Dispatch.SuccessExactly | ldownload/utils/native-messaging.ts:460-490 | an answered batch reports success exactly when every chunk was acknowledged or, against an old App, some single item was |
| Dispatch.LegacySummary | ldownload/utils/native-messaging.ts:394-440 | the summary of single items counts those that were sent; none is a failure in the first item's words |
| Dispatch.RoutedAnswer | ldownload/utils/download-dispatch.ts:95-177 | whose answer a routed batch gets, by the mode, whether there is an address, and the five texts |
| Dispatch.AddressExactly | ldownload/utils/download-dispatch.ts:106-113 | an address counts unless it is all white space |
| Aria2.GidRoundTrip | native/api/src/aria2.rs:27-67 | a GID handed out finds its task again exactly when no other task shares its sixteen digits |
| Aria2.ResolveExactly | native/api/src/aria2.rs:27-67 | any GID, in any case and with any hyphens, names the one task whose id it begins; malformed, matching none or several it is reported as such |
| Aria2.GidOfTask | native/api/src/aria2.rs:27-40 | a task's GID is the first sixteen characters of its compact id |
| Aria2.CompactSpelling | native/api/src/aria2.rs:27-67 | hyphens are dropped and capitals count as small letters, character by character |
| Aria2.BucketsPartition | native/api/src/aria2.rs:89-102 | every task of a known status is in exactly one bucket |
| Aria2.PaginatePanics | native/api/src/aria2.rs:267-288 | a page fails exactly when offset plus count leaves 64 bits inside the list |
| Aria2.BackwardIsReversedForward | native/api/src/aria2.rs:262-288 | the page at -(k+1) is the page at k of the reversed list |
| Aria2.AllPagesCover | native/api/src/aria2.rs:267-288 | the forward pages of any size whose last page ends within 64 bits put together are the list |
| Aria2.SomePagePanics | native/api/src/aria2.rs:267-288 | if the last page ends beyond 64 bits, one of the pages panics |
| Aria2.PagesListEveryTask | native/api/src/aria2.rs:89-102 | the active bucket and all pages of the other two, of any size whose last page ends within 64 bits, hold every task once |
| Auth.ConstantTimeEqIsEquality | native/api/src/auth.rs:106-114 | the fold over differing bits says equal exactly for equal byte strings |
| Auth.TextEqIsEquality | native/api/src/auth.rs:106-114 | so on the UTF-8 bytes of two texts it says equal exactly for the same text |
| Auth.Utf8Injective | native/api/src/auth.rs:106-114 | different texts have different bytes |
| GlobalOptions.MapChangeGlobalOptions | native/api/src/aria2.rs:580-593 | the loop over the table is the model's translation |
| GlobalOptions.AllOrNothing | native/api/src/aria2.rs:577-593 | a change succeeds exactly when every recognised string value is valid, and then writes every one of them and nothing else |
| GlobalOptions.AcceptedExactly | native/api/src/aria2.rs:584-592 | a change is accepted exactly when every recognised value is valid |
| GlobalOptions.RefusalNamesTheFirst | native/api/src/aria2.rs:584-592 | a refused change names the first invalid option of the table and its text |
| GlobalOptions.ValidExactly | native/api/src/aria2.rs:484-514 | which texts each kind of option accepts |
| GlobalOptions.SizeExactly | native/api/src/aria2.rs:612-634 | any text as a size: blanks, unit letter and number |
| GlobalOptions.KeyExactly | native/api/src/aria2.rs:585-590 | an accepted change writes the keys of the recognised options and no others |
| GlobalOptions.ValueExactly | native/api/src/aria2.rs:588-590 | each under its own translated value |
| GlobalOptions.OptionsByName | native/api/src/aria2.rs:518-561 | option by option: which configuration key it writes, and its value by kind |
| GlobalOptions.NoOtherKey | native/api/src/aria2.rs:518-561 | no other key is ever written |
| GlobalOptions.ReportByName | native/api/src/aria2.rs:518-610 | option by option: the stored value it reports, or which default, and the fixed ones |
| GlobalOptions.FirstErrorStays | native/api/src/aria2.rs:584-592 | an invalid value decides the outcome whatever follows |
| GlobalOptions.ConfigKeysDistinct | native/api/src/aria2.rs:518-561 | no two options share a configuration key |
| Text.NumbersExactly | native/api/src/aria2.rs:488-503 | digits, perhaps after a sign, are read as their value exactly if it fits 64 bits |
| Text.NoOtherNumber | native/api/src/aria2.rs:488-503 | nothing else is read as a number |
| GlobalOptions.PrintedSize | native/api/src/aria2.rs:488-490 | a size that was written out reads back as itself |
| GlobalOptions.SizeWithUnit | native/api/src/aria2.rs:614-633 | a number with one of the letters k, m, g is that many times 1024, its square or its cube, held within 64 bits, for every 64-bit number |
| GlobalOptions.ToNativeIdempotent | native/api/src/aria2.rs:484-514 | translating a translated value changes nothing, for every kind of option |
| GlobalOptions.EchoExactly | native/api/src/aria2.rs:580-610 | echoing the options and submitting the echo is accepted and writes back every stored value exactly when every stored value is in its printed form |
| GlobalOptions.ChangeKeepsNormal | native/api/src/aria2.rs:580-593 | an accepted change stores values in their printed form, so they survive the echo |
| JsonRpcResults.RpcServer.HandleJsonRpc | native/api/src/jsonrpc.rs:44-71 | a request body is handled as the model says, host and reply |
| JsonRpcResults.RpcServer.DispatchRpcCall | native/api/src/jsonrpc.rs:89-122 | one call, exempt methods and token order included |
| JsonRpcResults.RpcServer.SystemMulticall | native/api/src/jsonrpc.rs:185-227 | the multicall loop, entry by entry |
| JsonRpcResults.RpcServer.PurgeDownloadResult | native/api/src/jsonrpc.rs:535-542 | the purge loop |
| JsonRpcResults.BodyRunsItsLeaves | native/api/src/jsonrpc.rs:44-71 | any body leaves the host where its permitted calls, run one by one, leave it |
| JsonRpcResults.BodyIsAuthorised | native/api/src/jsonrpc.rs:75-122 | for any body, every host call is made by a call whose own parameters passed the token check |
| JsonRpcMethods.HostCallsCarryTheToken | native/api/src/jsonrpc.rs:75-122 | for any body on a guarded server, every host call is made by a call whose own parameters begin with "token:" and the server's token |
| JsonRpcMethods.TokenExactly | native/api/src/jsonrpc.rs:75-87 | parameters are let in exactly when the server is not guarded or they begin with that text, whatever characters the token has |
| JsonRpcMethods.CallIsLetIn | native/api/src/jsonrpc.rs:89-122 | a call is answered Unauthorized and does nothing exactly when it must carry the token and does not; every other call is answered by its method with the token taken off |
| JsonRpcMethods.TokenIsTakenOff | native/api/src/jsonrpc.rs:124-133 | with the right token in front a method sees the remaining parameters, with any other the call is refused |
| JsonRpcMethods.EntryIsLetIn | native/api/src/jsonrpc.rs:185-228 | the same for each entry of a multicall |
| JsonRpcMethods.ListsNeedNoToken | native/api/src/jsonrpc.rs:99-104 | the two lists of names are answered without a token |
| JsonRpcMethods.AllTasksAtOnce | native/api/src/jsonrpc.rs:145-146 | pausing and resuming everything asks the host just that and passes its answer on |
| JsonRpcMethods.AddUriAsks | native/api/src/jsonrpc.rs:236-263 | addUri asks for the first address that is not blank, trimmed, with its options, or for nothing |
| JsonRpcMethods.AddTorrentAsks | native/api/src/jsonrpc.rs:265-290 | addTorrent passes a torrent that is not blank on as it is |
| JsonRpcMethods.RemoveResultAsks | native/api/src/jsonrpc.rs:545-564 | only a finished or failed task's record is removed, and only the one the GID names |
| JsonRpcMethods.TellStatusShows | native/api/src/jsonrpc.rs:343-363 | a status is that of the task the GID names, with its speed, whole or the selected keys |
| JsonRpcMethods.ShowsTheTask | native/api/src/jsonrpc.rs:435-468 | files, addresses and options are those of the task the GID names |
| JsonRpcMethods.TotalsCount | native/api/src/jsonrpc.rs:498-529 | the totals count each task in its own bucket, by status number |
| JsonRpcMethods.ChangeIsApplied | native/api/src/jsonrpc.rs:478-494 | a change of options reaches the host at once and whole, or not at all |
| JsonRpcMethods.EchoIsApplied | native/api/src/jsonrpc.rs:471-494 | asking for the options and submitting the answer applies the stored values again |
| JsonRpcMethods.GidIsRequired | native/api/src/jsonrpc.rs:566-586 | without a usable GID the ten methods about one task report the reason and ask for the list at most |
| JsonRpcMethods.ActAnswers | native/api/src/jsonrpc.rs:294-341 | acting on one task asks the host for the list and that act, and answers the task's GID or the host's refusal |
| JsonRpcMethods.FirstParameter | native/api/src/jsonrpc.rs:236-290 | a first parameter that is missing or of the wrong type is reported and nothing is asked |
| JsonRpcMethods.PageParameters | native/api/src/jsonrpc.rs:386-408 | a page needs two 64-bit integers, the count not negative; anything else is reported and nothing is asked |
| JsonRpcMethods.PageShows | native/api/src/jsonrpc.rs:386-430 | a page of the right bucket, from either end, with the selected keys, or a panic where the page cannot be computed |
| JsonRpcMethods.ActiveShows | native/api/src/jsonrpc.rs:366-384 | the active tasks are listed whole, with the selected keys |
| JsonRpcMethods.RefusedList | native/api/src/jsonrpc.rs:366-430 | a host that refuses the list is reported as it is |
| JsonRpcMethods.PurgeAsks | native/api/src/jsonrpc.rs:535-543 | the purge method asks for the list and the deletion of every finished or failed task, and always confirms |
| JsonRpcMethods.AnsweredAlone | native/api/src/jsonrpc.rs:167-176 | what is answered without the host: empty lists, confirmations and the five unsupported methods |
| JsonRpcMethods.WhoAnswers | native/api/src/jsonrpc.rs:159-163 | version and session are answered without the host |
| JsonRpcMethods.UnknownMethods | native/api/src/jsonrpc.rs:178-179 | a name that is on no list is refused by name |
| JsonRpcMethods.RepliesAreReplies | native/api/src/jsonrpc.rs:89-122 | every call is answered with its own id and either a result or an error |
| JsonRpcMethods.ReplySpelling | native/api/src/jsonrpc.rs:604-610 | how such a reply is written |
| JsonRpcMethods.OddBodies | native/api/src/jsonrpc.rs:43-72 | a body that is not JSON, or no object or array, is refused with the protocol's own code |
| JsonRpcResults.TraceIsTheGroups | native/api/src/jsonrpc.rs:185-227 | the host calls of a body are those of its leaf calls, in order |
| JsonRpcResults.HostCallsAreAuthorised | native/api/src/jsonrpc.rs:202-227 | a leaf without a valid token of its own makes no host call |
| JsonRpcResults.ArrayReplies | native/api/src/jsonrpc.rs:56-63 | reply k of an array is the reply its call gets alone after the earlier ones |
| JsonRpcResults.EntryIsItsCall | native/api/src/jsonrpc.rs:202-227 | a multicall entry with array parameters does and reports what the same call does alone |
| JsonRpcResults.MulticallMovesTheHost | native/api/src/jsonrpc.rs:201-227 | for the host alone no condition is needed: entry by entry it goes through the same states |
| JsonRpcResults.MulticallIsItsCalls | native/api/src/jsonrpc.rs:185-227 | a multicall leaves the host as the array of its calls would, panic or not, and reports what that would whenever it replies at all |
| JsonRpcResults.EntryIgnoresOddParams | native/api/src/jsonrpc.rs:111-122 | the rule needs array parameters: alone other parameters are an error, as an entry they count as none |
| JsonRpcResults.PurgeDeletesTheStopped | native/api/src/jsonrpc.rs:535-542 | a purge asks to delete exactly the stopped tasks, in list order, and always answers OK |
| JsonRpcResults.DeletionsExactly | native/api/src/jsonrpc.rs:537-540 | a deletion is asked for exactly for each stopped task |
| JsonRpcListing.ListingShowsEveryTaskOnce | native/api/src/jsonrpc.rs:366-430 | the replies of tellActive and of all pages of tellWaiting and tellStopped show every task of a known status exactly once, for every page size whose last page ends within 64 bits |
| JsonRpcListing.PagesShow | native/api/src/jsonrpc.rs:386-430 | pages asked for one after the other show the list from their offset on, if the last one ends within 64 bits |
| JsonRpcListing.OnePage | native/api/src/jsonrpc.rs:386-430 | one page whose end is within 64 bits shows its part of the bucket and leaves the host alone |
| JsonRpcListing.GidActsOnItsTask | native/api/src/jsonrpc.rs:296-340 | remove, pause and unpause by a task's GID act on that task and no other, or on none when the GID is not unique |
| JsonRpcListing.NothingIsDispatched | native/api/src/jsonrpc.rs:582-585 | an unknown or ambiguous GID changes nothing and is reported |
| BudgetedScan.Scanner.Visit | ldownload/utils/media-sniff.ts:92-128 | visiting a value processes the next ones of the cut tree's preorder, as many as the budget allows |
| BudgetedScan.Scanner.VisitEach | ldownload/utils/media-sniff.ts:114-127 | so does the loop over its children |
| BudgetedScan.ScanForMediaUrls | ldownload/utils/media-sniff.ts:88-136 | the scan collects from the first 5000 values in preorder of the tree cut at depth 20, string by string under the length, slash and http rules |
| BudgetedScan.CollectExactly | ldownload/utils/media-sniff.ts:96-112 | collecting keeps what was found, adds exactly what the strings contribute, and repeats nothing |
| BudgetedScan.CollectsMediaUrls | ldownload/utils/media-sniff.ts:96-112 | what is collected is exactly the media URLs over http that some string of at most 4096 characters with a slash resolves to |
| BudgetedScan.ScanReportsExactly | ldownload/utils/media-sniff.ts:66-136 | for every tree, a URL is reported exactly if one of the values within the budgets names it so |
| BudgetedScan.SmallTreesAreScannedWhole | ldownload/utils/media-sniff.ts:66-136 | on a tree within the limits the report is that of the unbudgeted scan: every such URL of every string, once |
| BudgetedScan.FindDashNode | ldownload/utils/dash-manifest.ts:129-156 | the search returns the first manifest among the values its budget reaches |
| BudgetedScan.FindInChildren | ldownload/utils/dash-manifest.ts:147-155 | so does its loop over children |
| BudgetedScan.FindDash | ldownload/utils/dash-manifest.ts:129-156 | from the root: the first among 3000 values cut at depth 12 |
| BudgetedScan.FirstDashIsFirst | ldownload/utils/dash-manifest.ts:128-156 | in a list of values, what is found is an object with a track in its video or audio list, and nothing before it is one |
| BudgetedScan.SearchFindsExactly | ldownload/utils/dash-manifest.ts:128-156 | for every tree the search finds the first such object among the first 3000 values of the tree cut at depth 12 |
| BudgetedScan.ManifestExactly | ldownload/utils/dash-manifest.ts:128-146 | an object is a manifest exactly when one of the two lists holds a track, and the two lists are what is taken |
| BudgetedScan.TrackExactly | ldownload/utils/dash-manifest.ts:66-82 | a track has one of three addresses and one of five other fields, each of its type |
| BudgetedScan.NestingIsCut | ldownload/utils/media-sniff.ts:92-95 | of a value nested deeper than the limit, one level is seen for each depth and no more |
| BudgetedScan.SmallTreesAreSearchedWhole | ldownload/utils/dash-manifest.ts:40-41 | on a tree within the limits the result is that of the unbudgeted search |
| ResourceStore.EvictLowest | ldownload/utils/resource-store.ts:39-52 | the eviction loop removes the model's victim |
| ResourceStore.LowestIsFirstMinimum | ldownload/utils/resource-store.ts:43-50 | the victim is a minimum of confidence, then time, and the first of its kind |
| ResourceStore.AddEach | ldownload/utils/resource-store.ts:73-125 | the loop over reported resources and its count |
| ResourceStore.AddResource | ldownload/utils/resource-store.ts:74-124 | one round: noise, merge, or insertion with eviction |
| ResourceStore.Store.AddResources | ldownload/utils/resource-store.ts:60-128 | one tab changes as the model says, the others not, and the store stays sound |
| ResourceStore.Store.ClearResourcesForTab | ldownload/utils/resource-store.ts:182-184 | exactly one tab is forgotten |
| ResourceStore.EveryRunSound | ldownload/utils/resource-store.ts:60-128 | after any run a tab holds at most 500 entries with distinct ids, each filed under its own URL and trusted at least as much as its data warrants |
| ResourceStore.RunKeepsSound | ldownload/utils/resource-store.ts:60-128 | any run keeps a sound tab sound |
| ResourceStore.SizeExactly | ldownload/utils/resource-store.ts:118-127 | the reported count of new entries fixes the size: it grows by them until 500 |
| ResourceStore.AddedIsThere | ldownload/utils/resource-store.ts:80-124 | after a sighting its id is stored exactly if it was before or was inserted now |
| ResourceStore.MergeIsMonotone | ldownload/utils/resource-store.ts:215-259 | a merge keeps what was known, never lowers the confidence, and is idempotent |
| ResourceStore.MergeFills | ldownload/utils/resource-store.ts:215-259 | a merge fills every unknown field that is reported and raises the confidence to what the entry then deserves, never above |
| ResourceStore.EntryHistory | ldownload/utils/resource-store.ts:65-259 | after any run every entry is the sighting that put it there, each unknown field filled by the first later sighting of that id that knew it |
| ResourceStore.AbsorbFills | ldownload/utils/resource-store.ts:215-259 | merging any number of sightings fills each field from the first that knows it |
| ResourceStore.FirstAt | ldownload/utils/resource-store.ts:222-258 | which report that is: what was known, or else the first that is not blank |
| ResourceStore.FiledAsReported | ldownload/utils/resource-store.ts:88-116 | what a first sighting files: the report, kind and name guessed only where they are missing |
| ResourceStore.ConfidenceExactly | ldownload/utils/resource-types.ts:825-870 | which kinds and sizes count high, medium and low |
| ResourceStore.WorthExactly | ldownload/utils/resource-types.ts:877-910 | which resources are worth showing, limit by limit |
| ResourceStore.ConfidenceNeverFalls | ldownload/utils/resource-store.ts:250-258 | an entry that stays keeps its time and at least its confidence |
| ResourceStore.EvictionCost | ldownload/utils/resource-store.ts:39-52 | eviction costs a confidence level an entry only when the tab holds nothing below it |
| ResourceStore.InsertionCounts | ldownload/utils/resource-store.ts:118-124 | the exact effect of an insertion on the number at or above a level |
| ResourceStore.LevelsSurvive | ldownload/utils/resource-store.ts:36-52 | over any run the number at or above a level never falls below the lesser of its start and 499 |
| ResourceStore.NewcomerEvictsTheTrusted | ldownload/utils/resource-store.ts:118-124 | the bound is tight: into a full tab of trusted entries the weakest newcomer pushes one out |
| ResourceStore.ListedSorts | ldownload/utils/resource-store.ts:165-176 | the list shown is the tab's entries, most trusted first, then newest first |
| ResourceStore.VictimIsShownLast | ldownload/utils/resource-store.ts:165-176 | what eviction takes ties with what the list shows last |
| UrlDedup.NormalizeUrlForDedup | ldownload/utils/resource-types.ts:678-700 | the two loops and the sort on the URL object compute the canonical id |
| UrlDedup.NamesToDelete | ldownload/utils/resource-types.ts:685-690 | the names collected are those to strip |
| UrlDedup.SortKeepsValues | ldownload/utils/resource-types.ts:696 | sorting keeps the values of every name in order |
| Sorting.StableSortSorts | ldownload/utils/resource-types.ts:696 | the stable sort orders its elements and keeps them all |
| UrlDedup.SortedUnique | ldownload/utils/resource-types.ts:696 | two sorted lists with the same values per name are the same list |
| UrlDedup.NormalisedExactly | ldownload/utils/resource-types.ts:678-698 | two URLs normalise alike exactly when they agree outside query and fragment and on the values of every kept name |
| UrlDedup.OneParameterMore | ldownload/utils/resource-types.ts:678-698 | a parameter more makes no difference exactly when its name, in small letters, is in the table |
| UrlDedup.StampsAreIgnored | ldownload/utils/resource-types.ts:621-698 | time stamps, signatures, campaigns, referrers and ranges are ignored in any spelling |
| UrlDedup.SameIdExactly | ldownload/utils/resource-types.ts:678-712 | two strings get the same id exactly when both are such URLs, or neither parses and they are equal |
| UrlDedup.IdIsIdempotent | ldownload/utils/resource-types.ts:678-712 | the id of an id is that id |
| Reconcile.ReconcileTaskList | ldownload/entrypoints/popup/main.ts:340-374 | the children end as the items' elements in item order followed by untouched children without an id of their own, and nothing is moved exactly when those elements already led the list |
| Reconcile.PlaceAll | ldownload/entrypoints/popup/main.ts:353-369 | the loop over the items |
| Reconcile.PlaceItem | ldownload/entrypoints/popup/main.ts:355-368 | one round of it |
| Reconcile.Obtain | ldownload/entrypoints/popup/main.ts:355-361 | an item gets the element waiting under its id, or a new one, and the element shows it |
| Reconcile.Place | ldownload/entrypoints/popup/main.ts:362-368 | the element is moved behind its predecessor unless it is there |
| Reconcile.RemoveLeftovers | ldownload/entrypoints/popup/main.ts:371-373 | exactly the elements of vanished ids are removed |
| Reconcile.ExistingById | ldownload/entrypoints/popup/main.ts:346-351 | the table of current elements by id |
| Reconcile.OwnerTableIsLast | ldownload/entrypoints/popup/main.ts:346-351 | of several children with one id the last stands for it, and children without an id do not count |
| Reconcile.Container.NextSibling | ldownload/entrypoints/popup/main.ts:362-364 | the element behind the anchor, or the first |
| Reconcile.Container.InsertBefore | ldownload/entrypoints/popup/main.ts:365-367 | inserting takes the element out first and changes no other order |
| Reconcile.ChosenIsAssigned | ldownload/entrypoints/popup/main.ts:355-361 | an item takes over an element exactly when it is the first to ask for that id |
| Reconcile.SurvivorsKeepTheirElements | ldownload/entrypoints/popup/main.ts:355-358 | with distinct ids every surviving task keeps its element |
| Reconcile.UnchangedOrder | ldownload/entrypoints/popup/main.ts:362-368 | items in the order of the children get exactly those children |
| Reconcile.DistinctIdsAllOwn | ldownload/entrypoints/popup/main.ts:346-351 | with distinct ids no child is left over |
| PopupHost.PopupWindowHost.HandleHostShow | linux/runner/popup_window_host.cc:643-669 | show: ensure the window, hide, deliver or keep the payload, arm the fallback |
| PopupHost.PopupWindowHost.EnsureWindow | windows/runner/popup_window_host.cpp:183-213 | the window exists afterwards unless creating it failed, which forgets ready and payload |
| PopupHost.PopupWindowHost.HidePopup | linux/runner/popup_window_host.cc:168-173 | hiding also cancels the fallback |
| PopupHost.PopupWindowHost.PresentPopup | macos/Runner/PopupWindowHost.swift:188-208 | presenting on each host |
| PopupHost.PopupWindowHost.HandleHostAppend | linux/runner/popup_window_host.cc:679-695 | append reaches the popup engine only on a visible, ready popup, and says whether it did |
| PopupHost.PopupWindowHost.HandleHostRelay | linux/runner/popup_window_host.cc:700-714 | relay reaches a ready popup engine, and says whether it did |
| PopupHost.PopupWindowHost.HandleHostClose | linux/runner/popup_window_host.cc:671-675 | close hides without a notice |
| PopupHost.PopupWindowHost.HandleChildReady | linux/runner/popup_window_host.cc:203-210 | ready delivers and forgets the waiting payload |
| PopupHost.PopupWindowHost.HandleChildSubmit | linux/runner/popup_window_host.cc:212-225 | submit hides and reports the result |
| PopupHost.PopupWindowHost.HandleChildCancel | linux/runner/popup_window_host.cc:227-232 | cancel hides and reports the closing |
| PopupHost.PopupWindowHost.HandleSystemClose | windows/runner/popup_window_host.cpp:585-589 | a close by the window manager is a cancel |
| PopupHost.PopupWindowHost.HandleChildReveal | linux/runner/popup_window_host.cc:379-391 | reveal on each host, Linux refusing one without a usable height |
| PopupHost.PopupWindowHost.HandleChildRelay | linux/runner/popup_window_host.cc:237-251 | a relay by the popup engine reaches the main engine and changes no window state |
| PopupHost.PopupWindowHost.RevealFallback | linux/runner/popup_window_host.cc:159-165 | the fallback shows the popup once |
| PopupHost.EveryRunSound | linux/runner/popup_window_host.cc:150-173 | in every run an armed fallback means a hidden window, a kept payload means not ready, and nothing reached the popup engine before it was ready |
| PopupHost.DeliveredExactly | linux/runner/popup_window_host.cc:203-210 | the payloads delivered are the last accepted show before the first ready and every later one, in order |
| PopupHost.WaitingForReady | linux/runner/popup_window_host.cc:656-661 | before ready only the newest payload is kept |
| PopupHost.NeverLost | linux/runner/popup_window_host.cc:643-669 | an unfinished show is on screen or its fallback is armed, and a fallback is armed for nothing else |
| PopupHost.OnScreenExactly | windows/runner/popup_window_host.cpp:478-498 | the popup is on screen exactly if something presented it since it was last hidden, and the fallback armed exactly if that hiding was a show and nothing did |
| PopupHost.ShownWithoutRequest | macos/Runner/PopupWindowHost.swift:359-372 | on every host a late reveal shows the popup without a request |
| PopupHost.ShownWithoutRequestExactly | macos/Runner/PopupWindowHost.swift:359-372 | after a request ended the popup is on screen exactly if a reveal came since; the fallback never shows it |
| PopupHost.NoticesExactly | linux/runner/popup_window_host.cc:212-251 | the main engine hears of every submit, relay, cancel and system close once and in order, and of nothing else |
| PopupHost.HeardExactly | linux/runner/popup_window_host.cc:643-715 | over every legal run the popup engine hears exactly the payloads, the appends made while it was on screen and ready, and the relays made while it was ready, in order |
| PopupHost.AppendsExactly | linux/runner/popup_window_host.cc:677-695 | an append is answered with yes exactly if its address was handed over, in order |
| PopupHost.RepliesExactly | linux/runner/popup_window_host.cc:643-715 | what every request is answered on each host |
| PopupHost.StandingExactly | linux/runner/popup_window_host.cc:203-210 | the popup engine counts as ready from its first ready on, the window is there from the first accepted show on |
| PopupHost.OneProtocol | macos/Runner/PopupWindowHost.swift:154-208 | the three hosts go through the same states as long as creation succeeds and reveals carry a height |
| PopupHost.HostsDiffer | linux/runner/popup_window_host.cc:384-387 | a reveal without a height is where Linux parts from the others, exactly while the popup is hidden |
| FloatingBall.FloatingBallWindow.HandleShowBall | linux/runner/floating_ball_window.cc:976-1011 | show: resolve the position, then judge docking at once |
| FloatingBall.FloatingBallWindow.HandleHideBall | linux/runner/floating_ball_window.cc:1013-1021 | hide cancels every timer and keeps the docking state |
| FloatingBall.FloatingBallWindow.HandleDestroyBall | linux/runner/floating_ball_window.cc:1023-1040 | destroy cancels every timer and resets the state |
| FloatingBall.FloatingBallWindow.EvaluateDockSnap | linux/runner/floating_ball_window.cc:806-836 | docking is judged as the model says |
| FloatingBall.FloatingBallWindow.StartDockAnim | linux/runner/floating_ball_window.cc:779-799 | a slide starts from where the ball is, unless it is there |
| FloatingBall.FloatingBallWindow.DockExpandIfCollapsed | linux/runner/floating_ball_window.cc:861-872 | expanding |
| FloatingBall.FloatingBallWindow.CollapseDelay | linux/runner/floating_ball_window.cc:840-857 | collapsing |
| FloatingBall.FloatingBallWindow.AnimTick | linux/runner/floating_ball_window.cc:739-773 | one tick of a slide |
| FloatingBall.FloatingBallWindow.EnterNotify | linux/runner/floating_ball_window.cc:878-892 | the cursor enters |
| FloatingBall.FloatingBallWindow.LeaveNotify | linux/runner/floating_ball_window.cc:895-909 | the cursor leaves |
| FloatingBall.FloatingBallWindow.MotionNotify | linux/runner/floating_ball_window.cc:225-256 | dragging away ends docking |
| FloatingBall.FloatingBallWindow.ButtonPress | linux/runner/floating_ball_window.cc:198-223 | a left press |
| FloatingBall.FloatingBallWindow.ButtonRelease | linux/runner/floating_ball_window.cc:258-273 | its release |
| FloatingBall.FloatingBallWindow.ConfigureEvent | linux/runner/floating_ball_window.cc:168-188 | a user's move arms the settle timer |
| FloatingBall.FloatingBallWindow.MoveDebounce | linux/runner/floating_ball_window.cc:147-166 | a settled move judges docking |
| FloatingBall.EveryReachableStateSound | linux/runner/floating_ball_window.cc:840-909 | in every reachable state collapsed means docked, a pending collapse means docked and expanded, a slide means docked, and a hidden ball has neither move nor collapse timer |
| FloatingBall.StepSound | linux/runner/floating_ball_window.cc:1013-1040 | every event keeps that, and hide and destroy leave no timer pending |
| FloatingBall.StepHiddenSlides | linux/runner/floating_ball_window.cc:739-872 | exactly when a hidden ball has a slide after an event: an older slide goes on, or a drag finds a collapsed ball that is not where it expands to |
| FloatingBall.HiddenIsQuiet | linux/runner/floating_ball_window.cc:1013-1021 | until the next show a hidden ball has no timer and does not move itself, and a new slide takes a window, a collapsed ball and a drag |
| FloatingBall.HiddenWakesExactly | linux/runner/floating_ball_window.cc:404-411 | some course of events without a show has a hidden ball at rest sliding exactly when its window is there and it was collapsed |
| FloatingBall.HiddenSlideEndsAtOnce | linux/runner/floating_ball_window.cc:739-745 | after any such course the first tick ends the slide and moves nothing |
| FloatingBall.DragWakesHiddenBall | linux/runner/floating_ball_window.cc:404-411 | after hiding, a drag starts a slide exactly when the ball was collapsed and is not where it expands to, and some course of events does exactly when it was collapsed |
| FloatingBall.SlidesMonotonically | linux/runner/floating_ball_window.cc:746-757 | rounding included, a coordinate moves monotonically between its ends over all times |
| FloatingBall.SlideEnds | linux/runner/floating_ball_window.cc:748-757 | from 160 ms on it is exactly on the target |
| FloatingBall.TicksMonotone | linux/runner/floating_ball_window.cc:739-773 | two ticks of one slide bring the ball ever closer to its target |
| FloatingBall.DocksFlush | linux/runner/floating_ball_window.cc:806-836 | released near an edge the ball ends flush with it, elsewhere it stays |
| FloatingBall.ReleasedBallRests | linux/runner/floating_ball_window.cc:147-166 | a moved ball rests, 160 ms after it settled, flush with the left, right or top edge it is within twelve pixels of, in this order, or where it is |
| FloatingBall.ShownBallRests | linux/runner/floating_ball_window.cc:976-1011 | so does a shown ball from its clamped position or from the default place |
| FloatingBall.FollowsTheCurve | linux/runner/floating_ball_window.cc:746-757 | at any moment of a slide a coordinate is within half a pixel of the cubic curve |
| FloatingBall.TiesGoOutward | linux/runner/floating_ball_window.cc:754-757 | halfway between two integers a coordinate is rounded away from zero |
| FloatingBall.CollapseTimerExactly | linux/runner/floating_ball_window.cc:840-909 | when the collapse is pending, event by event |
| FloatingBall.CollapsedExactly | linux/runner/floating_ball_window.cc:840-909 | when the ball is collapsed, event by event |
| FloatingBall.MoveTimerExactly | linux/runner/floating_ball_window.cc:147-188 | when a user's move is pending |
| FloatingBall.EdgeExactly | linux/runner/floating_ball_window.cc:225-256 | what changes the edge |
| FloatingBall.WindowExactly | linux/runner/floating_ball_window.cc:976-1040 | when there is a window and when the ball is hidden |
| FloatingBall.PointerExactly | linux/runner/floating_ball_window.cc:198-273 | when the pointer is down |
| FloatingBall.DraggingExactly | linux/runner/floating_ball_window.cc:198-273 | when it drags |
| FloatingBall.MovesExactly | linux/runner/floating_ball_window.cc:739-773 | what moves the ball, and to where |
| FloatingBall.DockIsStableExactly | linux/runner/floating_ball_window.cc:818-826 | judging a docked ball again keeps its edge exactly unless it is on the right of a too narrow area |
| FloatingBall.NarrowAreaLosesRightDock | linux/runner/floating_ball_window.cc:818-826 | a concrete area in which a ball docked right is judged again and goes left |
| FloatingBall.CollapseAndReturn | linux/runner/floating_ball_window.cc:694-717 | collapsed, exactly the reveal width is visible, and hovering restores the exact position |
| FloatingBall.ResolvedIsOnScreen | linux/runner/floating_ball_window.cc:622-640 | a requested position is brought into the area, and one inside is taken as it is |
| FloatingBall.FirstShowDocksRight | linux/runner/floating_ball_window.cc:627-631 | without a remembered position the ball docks right in any area wide enough |
| MailRun.Script.Run | scripts/send_notify.py:242-338 | one run of the script on file, answers and sends |
| MailRun.Script.SendBatches | scripts/send_notify.py:277-334 | the batches, one connection each |
| MailRun.Script.SendBatch | scripts/send_notify.py:299-317 | the addresses of a batch |
| MailRun.Script.Deliver | scripts/send_notify.py:307-317 | one address: send, record, count |
| MailRun.Script.SendWithRetries | scripts/send_notify.py:163-195 | the retry loop |
| MailRun.RetriesAreBounded | scripts/send_notify.py:172-195 | an address is tried at most three times and handed over at most once |
| MailRun.AttemptsDecide | scripts/send_notify.py:163-195 | up to two temporary refusals are retried over new connections, then the next answer decides; the mail is handed over exactly when it says so |
| MailRun.RunGoes | scripts/send_notify.py:242-338 | a run without breakdowns mails every pending address that is taken, in order, eight to a connection, counts the refused ones, and removes the file exactly if there was none and nothing cut it off |
| MailRun.NoConnection | scripts/send_notify.py:277-292 | a run that gets no connection changes nothing |
| MailRun.EveryMailAccounted | scripts/send_notify.py:242-338 | for distinct recipients and any history of restarts and crashes the accepted mails are one per recorded recipient plus one per crash between delivery and record, and in the end one per recipient plus those |
| MailRun.EveryAddressIsMailedFairly | scripts/send_notify.py:242-338 | over any history and any list, repeated recipients included, an address gets the mails lost in its crashes and no other until it is on record, and then between one and its number of listings more |
| MailRun.SendsAreBounded | scripts/send_notify.py:242-338 | so for every list at most one mail per listing plus one per crash |
| MailRun.RecordedIsNotMailedAgain | scripts/send_notify.py:247-252 | over any history of resumed runs, an address that is on record at some point gets no further mail, whoever else is listed |
| MailRun.RecordedIsSkipped | scripts/send_notify.py:247-252 | one resumed run mails no recorded address and keeps it on record unless it removes the file |
| MailRun.DeletedOnlyWhenAllRecorded | scripts/send_notify.py:310-338 | a run removes the file exactly when it ends without failure and there is one, and then every recipient is on record in it, with `--resume` or without |
| MailRun.ListedTwiceMailedTwice | scripts/send_notify.py:252 | a recipient listed twice is mailed twice |
| MailRun.PlainRestartMailsAgain | scripts/send_notify.py:247-249 | a restart without `--resume` mails a recorded recipient again |
| ExtraArgs.ParseExtraArgs | examples/plugins/ytdlp/resolve.js:121-150 | the index loop computes the token list |
| ExtraArgs.SplitsAtBlank | examples/plugins/ytdlp/resolve.js:139-140 | a blank outside quotes separates: the tokens are those of the left followed by those of the right |
| ExtraArgs.RoundTrip | examples/plugins/ytdlp/resolve.js:119-150 | every list written down with any mixture of quotes, bare words and blanks is read back as that list |
| ExtraArgs.DoubleQuotedRoundTrip | examples/plugins/ytdlp/resolve.js:119-150 | in particular with double quotes and single spaces, for every list of strings |
| ExtraArgs.ScanEscaped | examples/plugins/ytdlp/resolve.js:130-137 | escaped text inside a quote is read as the text |
| ExtraArgs.OpenQuoteReadsOn | examples/plugins/ytdlp/resolve.js:128-150 | a quote that is never closed reaches to the end of the line |
| ExtraArgs.BackslashStays | examples/plugins/ytdlp/resolve.js:128-146 | a backslash before an ordinary character is read as it is, in quotes and outside |
| ExtraArgs.PiecesJoin | examples/plugins/ytdlp/resolve.js:128-146 | pieces with no blank between them are one argument, however each is quoted |
| Ico.BuildIco | scripts/gen_icons.ts:285-316 | writing succeeds exactly when every number fits its field, and then yields the laid-out file |
| Ico.WriteEntry | scripts/gen_icons.ts:299-310 | one directory entry is written in place, all sixteen bytes and no others |
| Ico.WriteHeader | scripts/gen_icons.ts:289-292 | the header fails exactly for more frames than sixteen bits hold |
| Ico.HeaderReadsBack | scripts/gen_icons.ts:289-292 | type and number of frames read back |
| Ico.FrameReadsBack | scripts/gen_icons.ts:299-313 | each entry leads to exactly its frame's bytes, and its size reads back exactly for sizes 1 to 256 |
| Ico.RegionsAreContiguous | scripts/gen_icons.ts:296-315 | the data regions follow each other without gap or overlap to the end of the file |

## Left out

- Single downloads: `sendDownloadRequest`, availability checks, warm-up and the settings cache of `download-dispatch.ts`; the cache can hold a stale load and promises no coherence.
- Fields of an API response other than success and message, `toBatchWireItem`, and the referrer filter: they are passed through. The serialised length of a wire item is a parameter of the splitter.
- The remote server is one answer that never throws; its HTTP exchange is not part of this model.
- What becomes of a port whose listeners could not be registered: that the send throws is modelled, the port it leaves behind is not.
- Reactions of one process to two ports at once: losing any port is one event that forgets the current port and settles what is pending, which is what the listener does whichever port it belongs to.
- Rendering of statuses, files, uris and options and the parsing of per-download options in the JSON-RPC layer: parameters of `Backend`, since they make no host call.
- The text of a JSON parse error after its first words, and JSON text itself; requests are trees whose objects are maps.
- JsonRpc.Dispatch: its contract only says that the log of host calls grows; what the methods do is stated by the lemmas of `JsonRpcResults`, `JsonRpcMethods` and `JsonRpcListing`.
- A panic of a request is a flag that stops the request; how the server survives it is not modelled.
- Auth.ConstantTimeEqIsEquality: the time the comparison takes is not modelled.
- URL resolution, percent-encoding, the media, noise and MIME tables: parameters. The laws of `UrlDedup` assume of a URL that exchanging its query and serialising it can be parsed back; a URL with an opaque path whose trailing spaces the URL class strips is not covered. Names are compared character by character where the source compares UTF-16 code units; only that the order is total matters. String lengths count characters.
- `parseDashJson`, `toTrack`, `groupTrackPairs`, `matchSniffRule` and the rule index: tables, sorting and field filling that would add easy members.
- Entries of the resource store are values: that a listed resource is the stored object itself, and so changes with later merges, is not modelled. An absent text field and an empty one are the same.
- Elements made for the task list are taken to carry the id of their item, as the popup's own renderers do.
- Sizes, positions, styles and focus of the popup window; a timer message that is already queued when the timer is cancelled (Windows); pickFolder, startDrag and resize, which do not touch the protocol's state.
- The counter that tells the ball's own moves from the user's: whether a configure event is the ball's own is a parameter. Moves take effect at once, arithmetic is over the reals before rounding, and drawing, menus and dropped data are not part of this model.
- Mail content, pauses and connection details; a mail the server accepted although the client saw an error counts as not sent; the progress file is written in one piece.
- pickVideoAtOrBelow, buildVariants and the rest of the plugin: filters over parsed yt-dlp output.
- Drawing and scaling of icons; the PNG bytes of a frame are given.
